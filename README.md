# kubectl proxy, exec terminal and AI analysis — a Dafny model

This project models three command modules of a Tauri desktop client for
Kubernetes. Each one is called from the web frontend.

- **`kubectl proxy` management** (`src-tauri/src/commands/proxy.rs`):
  - choosing the kubectl binary;
  - converting the Windows home directory into a WSL path;
  - scanning `.kube` directories for `config*` files and finding the first
    kubeconfig that lists a context;
  - building the `kubectl proxy` argument vector;
  - the single managed proxy slot (start kills the previous child, stop empties
    the slot);
  - the ten-attempt readiness poll;
  - the error text built from the stderr kubectl has written.
- **The `kubectl exec -it` terminal** (`src-tauri/src/commands/exec.rs`):
  - the initial PTY size (80×24 by default);
  - the exec argument vector;
  - the four fallible setup steps and their error messages;
  - the one-slot session table behind `start_pty_exec`, `send_exec_input`,
    `resize_pty` and `stop_pty_exec`;
  - the reader thread. It copies each PTY read through a 4096-byte buffer into
    a `pty-output` event and always ends with exactly one `pty-done`.
- **AI analysis** (`src-tauri/src/commands/ai.rs`):
  - the API-key check;
  - the choice of prompt by mode;
  - the streaming Messages request (endpoint, headers, model, `max_tokens`,
    `stream`);
  - the server-sent-event loop. It cuts every chunk into lines, keeps the
    `data: ` lines, stops at `[DONE]`, appends each `delta.text` to a buffer and
    emits it as `ai-stream`, and emits the whole buffer as `ai-done` at the end.

Supporting modules:

- `wrappers.dfy`: `Option` and `Result`.
- `text.dfy`: the Rust string operations the commands use.
  - `char::is_whitespace`, `str::trim`, `str::starts_with`, `str::lines`,
    `to_ascii_lowercase`, and `str::replace` of one character.
  - UTF-8 encoding (`str::as_bytes`) with its decoding round trip.
- `sorting.dfy`: the lexicographic order and an insertion sort standing for
  `Vec<PathBuf>::sort`. Its result is proved to be the unique sorted
  permutation, so it agrees with any correct sort.

Everything the commands observe of the outside world is a parameter of the
model:

- **Proxy:** a `Host` value holds the operating system flag, the existing paths
  and directories, the home directory, `USERPROFILE`, the `read_dir` listings
  and the contexts of every kubeconfig file that parses.
- **Outcomes of fallible calls:** each is given as a parameter — `Option` error
  strings, the sequence of the ten probe outcomes, the sequence of PTY reads,
  the sequence of HTTP chunks, and the indices of the emit calls that fail.
- **JSON:** extracting `delta.text` from a payload is the function parameter
  `extract`.

State that the source updates in place is modelled as classes:

- `KubectlProxy` with its child slot, and `ProxyChild`;
- `PtySession` with its inner slot;
- `PtySessionInner`, with the bytes its writer has accepted, its flush count,
  its PTY size and whether its child was killed.

Loops in the source are methods with loop invariants, each proved equal to a
specification function whose properties are lemmas:

- `FindKubeconfigForContext` and `AccumulateStderr`;
- `ReadLoop`, which copies into an `array<byte>` of 4096;
- `ReadStream`, a `while !done` loop around a `for` loop over lines.

`PollUntilReady` is a loop too; its `ensures` state the property outright (the
first ready attempt, or none among ten). `BuildProxyArgs` has no loop: it
pushes the arguments one by one, as the source does, and is proved equal to
`ProxyArgs`.

## Model

| member | source | states |
|---|---|---|
| `Proxy.FirstIn` | src-tauri/src/commands/proxy.rs:24-28 | a found candidate is accepted and is the one at the first accepted index; None means no candidate is accepted |
| `Proxy.FirstInAppend` | src-tauri/src/commands/proxy.rs:96-111 | searching two lists one after the other finds what searching their concatenation finds |
| `Proxy.KubectlBinary` | src-tauri/src/commands/proxy.rs:19-30 | `kubectl.exe` on Windows; elsewhere `/usr/bin/kubectl` if it exists, else `/usr/local/bin/kubectl` if it exists, else `kubectl` |
| `Proxy.WindowsHomeInWsl` | src-tauri/src/commands/proxy.rs:37-47 | a result exists iff the variable is set and its trim has ':' second; the result is `/mnt/`, the lowered drive, then the rest with every '\' made '/', character by character |
| `Proxy.WindowsHomeOfDrive` | src-tauri/src/commands/proxy.rs:38-46 | a profile `<drive>:<path>` with no surrounding blanks becomes `/mnt/<lowered drive><path with '/'>` |
| `Proxy.WindowsHomeInWslAsWritten` | src-tauri/src/commands/proxy.rs:45 | the code as written panics only when the drive character takes more than two UTF-8 bytes |
| `Proxy.AsWrittenAgreesOnAsciiDrive` | src-tauri/src/commands/proxy.rs:40-46 | with an ASCII first character, the code as written and the corrected conversion give the same result |
| `Proxy.AsWrittenKeepsColon` | src-tauri/src/commands/proxy.rs:45 | with a two-byte drive, the code as written keeps the ':' in the path while the corrected conversion drops it |
| `Proxy.AsWrittenPanics` | src-tauri/src/commands/proxy.rs:45 | with a drive of three or more bytes, the code as written panics where the corrected conversion succeeds |
| `Proxy.KubeDirsToScan` | src-tauri/src/commands/proxy.rs:52-69 | only existing directories are listed; the home `.kube` comes first, the WSL Windows-side `.kube` last; one entry per directory that exists |
| `Proxy.ConfigPaths` | src-tauri/src/commands/proxy.rs:76-86 | a path is kept exactly when it comes from a readable, Unicode-named entry whose name starts with "config" and whose joined path is not a directory |
| `Proxy.ScanKubeDirForConfigs` | src-tauri/src/commands/proxy.rs:72-89 | sorted; exactly the kept paths, as a permutation of them; empty when the directory cannot be read |
| `Proxy.JoinOrder` | src-tauri/src/commands/proxy.rs:79-87 | two files of one directory compare as their names do, so sorting the joined paths orders them by file name |
| `Proxy.FindKubeconfigForContext` | src-tauri/src/commands/proxy.rs:95-114 | returns the first file, across the directories in order and each directory's sorted files, that parses and lists the context; None when there is none |
| `Proxy.BuildProxyArgs` | src-tauri/src/commands/proxy.rs:136-160 | the vector built push by push equals the argument specification |
| `Proxy.ProxyArgsShape` | src-tauri/src/commands/proxy.rs:136-160 | starts with `proxy --port=8001 --disable-filter=true`; with a context, `--context=<ctx>` follows, then `--kubeconfig=<file>` only when a file was resolved |
| `Proxy.ExplicitKubeconfigFirst` | src-tauri/src/commands/proxy.rs:147-151 | a non-empty explicit file is used without a scan; an empty one counts as absent |
| `Proxy.ResolvedKubeconfigOrigin` | src-tauri/src/commands/proxy.rs:147-155 | the resolved file is the explicit one, or a scanned file that parses and lists the context |
| `Proxy.AtMostOneKubeconfigArg` | src-tauri/src/commands/proxy.rs:153-155 | a single `--kubeconfig=` argument at most: never a list of files |
| `Proxy.PollUntilReady` | src-tauri/src/commands/proxy.rs:222-240 | returns the first 1-based attempt whose response is 2xx or 403, with all earlier attempts not ready; None only when all ten are not ready |
| `Proxy.AccumulateStderr` | src-tauri/src/commands/proxy.rs:203-208 | the buffer is every stderr line followed by '\n' |
| `Proxy.CapturedBlankIffLinesBlank` | src-tauri/src/commands/proxy.rs:243-244 | the captured text is blank exactly when every line is blank |
| `Proxy.NoOutputDetailIffBlankStderr` | src-tauri/src/commands/proxy.rs:244-248 | the "no output captured" detail appears exactly when kubectl wrote only whitespace |
| `Proxy.KubectlProxy.Start` | src-tauri/src/commands/proxy.rs:131-253 | the old child is killed; a spawn error leaves the slot empty with the spawn message; otherwise a new child with this binary and these arguments fills the slot, and the result is the client error or the readiness verdict |
| `Proxy.KubectlProxy.Stop` | src-tauri/src/commands/proxy.rs:258-265 | the slot is empty afterwards; the old child is killed; the kill error is returned only when there was a child |
| `Proxy.StopTwice` | src-tauri/src/commands/proxy.rs:258-265 | a second stop finds the slot empty and succeeds |
| `Exec.InitialSizeDefaults` | src-tauri/src/commands/exec.rs:56-61 | a missing column or row count defaults to 80 or 24; given ones are kept; no pixel size |
| `Exec.ExecArgsRoundTrip` | src-tauri/src/commands/exec.rs:68-79 | pod, namespace, kubeconfig file and context can be read back from the exec vector, whatever they contain |
| `Exec.ExecArgsInjective` | src-tauri/src/commands/exec.rs:68-79 | different targets never give the same exec command line |
| `Exec.SetupError` | src-tauri/src/commands/exec.rs:63-95 | no error iff all four steps succeed; otherwise the message of the first that fails, with its prefix |
| `Exec.PtySessionInner.WriteAll` | src-tauri/src/commands/exec.rs:154-157 | the writer gains all the bytes, or on failure only the accepted prefix |
| `Exec.PtySessionInner.Resize` | src-tauri/src/commands/exec.rs:176-184 | the master takes the new size unless the resize fails |
| `Exec.PtySession.Start` | src-tauri/src/commands/exec.rs:37-108 | a setup failure returns its message and leaves the slot and every field of the old session unchanged; success kills the old child and installs a fresh session with this program, these arguments and the initial size |
| `Exec.PtySession.SendInput` | src-tauri/src/commands/exec.rs:148-164 | with a session, the UTF-8 bytes of the input are written and flushed, with the "PTY write error"/"PTY flush error" messages and what the writer holds in each case; without one, Ok |
| `Exec.PtySession.Resize` | src-tauri/src/commands/exec.rs:169-187 | with a session, the size becomes the given rows and columns with no pixel size, or the "PTY resize error" message; without one, Ok |
| `Exec.PtySession.Stop` | src-tauri/src/commands/exec.rs:192-198 | always Ok; the slot is empty and the old child is killed |
| `Exec.StopThenUse` | src-tauri/src/commands/exec.rs:148-198 | after a stop, input, resize and a second stop all succeed, whatever the writer or the PTY would report, and the slot stays empty |
| `Exec.ReadLoop` | src-tauri/src/commands/exec.rs:112-140 | the events the thread emits through its 4096-byte buffer are those of the reader specification |
| `Exec.ReaderEventsShape` | src-tauri/src/commands/exec.rs:112-140 | one `pty-output` per read that returned data, in order, each at most 4096 bytes; then `pty-done`; the loop stops at end of file, a read error or the first failed emit |
| `Exec.DoneExactlyOnce` | src-tauri/src/commands/exec.rs:138-139 | `pty-done` is emitted exactly once, as the last event |
| `Text.Trim` | src-tauri/src/commands/proxy.rs:39 | the result is the slice of the input between its leading and trailing whitespace, starts and ends with non-whitespace, and is empty iff the input is all whitespace |
| `Text.ReplaceChar` | src-tauri/src/commands/proxy.rs:45 | same length; every '\' becomes '/' and every other character is kept |
| `Text.EncodeDecodeChar` | src-tauri/src/commands/exec.rs:156 | decoding the UTF-8 encoding of a character gives the character back |
| `Text.Utf8Encode` | src-tauri/src/commands/exec.rs:156 | at least one byte per character; ASCII text encodes byte for byte |
| `Text.Lines` | src-tauri/src/commands/ai.rs:86 | no line holds '\n'; no lines iff the text is empty |
| `Text.LinesRoundTrip` | src-tauri/src/commands/ai.rs:86 | on text without '\r', putting '\n' after every line gives the text back, with a final '\n' added if it had none |
| `Sorting.Sort` | src-tauri/src/commands/proxy.rs:87 | ascending, and a permutation of the input |
| `Sorting.SortedPermutationUnique` | src-tauri/src/commands/proxy.rs:87 | two sorted permutations of the same paths are equal, so the model's sort agrees with the library's |
| `Ai.SelectPromptReadBack` | src-tauri/src/commands/ai.rs:16-55 | the prompt starts with the logs preamble iff the mode is exactly "logs", else with the describe preamble; the output is the whole rest |
| `Ai.AnalyzeWithAi` | src-tauri/src/commands/ai.rs:8-106 | the command as run equals the analysis specification: result, request sent and events emitted |
| `Ai.ReadStream` | src-tauri/src/commands/ai.rs:78-105 | the nested chunk and line loops with early returns equal the stream specification |
| `Ai.AnalyzeEvents` | src-tauri/src/commands/ai.rs:13-76 | without the key: the key error, no request, no events; otherwise a POST to the Messages endpoint with the key in `x-api-key` and a body for `claude-sonnet-4-6`, 1024 tokens, streamed, whose one user message is the prompt; a failed send: its prefixed error and no events; a success ends with `ai-done` of all deltas |
| `Ai.StreamEvents` | src-tauri/src/commands/ai.rs:78-105 | every event but the last is `ai-stream`; an `ai-done` is only ever last and carries the deltas joined; a success ends with it |
| `Ai.ProcessLinesConsistent` | src-tauri/src/commands/ai.rs:86-99 | the buffer stays the join of the emitted deltas, and events are only appended |
| `Ai.ProcessChunksConsistent` | src-tauri/src/commands/ai.rs:81-103 | the buffer and the emitted deltas agree across all chunks |
| `Ai.FailureWithoutDone` | src-tauri/src/commands/ai.rs:82-97 | when the chunk loop fails, every event it emitted is an `ai-stream`: there is no `ai-done` |
| `Ai.DoneCutsOff` | src-tauri/src/commands/ai.rs:88-91 | after `[DONE]`, no later line of its chunk and no later chunk is processed |
| `Ai.NonDataLinesIgnored` | src-tauri/src/commands/ai.rs:87 | lines without the `data: ` prefix have no effect: processing all lines is processing the data lines alone |
| `Ai.UnusableLineSkipped` | src-tauri/src/commands/ai.rs:87-93 | a non-data line, or a data line that yields no delta and is not `[DONE]`, is skipped without error |
| `Ai.LinesEmitAccepted` | src-tauri/src/commands/ai.rs:86-99 | with no failing emit, the line loop appends exactly the accepted deltas, in order, to the buffer and as `ai-stream` events, and stops early exactly when the chunk holds `[DONE]` |
| `Ai.ChunksEmitAccepted` | src-tauri/src/commands/ai.rs:81-103 | with no chunk error and no failing emit, the chunk loop appends exactly the accepted deltas of the whole body |
| `Ai.FirstFailing` | src-tauri/src/commands/ai.rs:95-96 | the least emit index in the range whose emit fails, or the end of the range when none does |
| `Ai.EmitAllDeltas` | src-tauri/src/commands/ai.rs:94-96 | with no failing emit among them, every delta is appended to the buffer and emitted, in order |
| `Ai.EmitFailsAt` | src-tauri/src/commands/ai.rs:94-96 | when delta k's emit is the first to fail, the deltas up to and including k are appended and emitted and that emit's error is the outcome |
| `Ai.EmitDeltasAppend` | src-tauri/src/commands/ai.rs:94-96 | emitting two lists of deltas is emitting the first, then, unless an emit failed, the second |
| `Ai.LinesViaEmit` | src-tauri/src/commands/ai.rs:86-99 | with any emit failures, a chunk's line loop is the emitting of its accepted deltas, stopped by `[DONE]` if the chunk holds one |
| `Ai.ChunksViaEmit` | src-tauri/src/commands/ai.rs:81-103 | with any emit failures and chunk errors, the chunk loop is the emitting of the body's accepted deltas, ended by an emit failure or else by the chunk error the loop reaches |
| `Ai.StreamFailures` | src-tauri/src/commands/ai.rs:81-106 | the body's result: the error of the first failing `ai-stream` emit, after the deltas up to it; else the chunk error reached, after every delta; else every delta then `ai-done` with them joined, Ok unless that emit fails |
| `Ai.ChunkErrorFails` | src-tauri/src/commands/ai.rs:82 | a chunk read error reached before `[DONE]`, with every earlier emit succeeding, is the result; the events are the earlier deltas' `ai-stream`s and no `ai-done` |
| `Ai.EmitFailureFails` | src-tauri/src/commands/ai.rs:95-96 | when the k-th accepted delta's emit is the first to fail, the result is its error and the events are exactly the first k + 1 deltas' `ai-stream`s |
| `Ai.StreamOfAcceptedDeltas` | src-tauri/src/commands/ai.rs:78-105 | with no chunk error and no failing emit, the result is Ok and the events are one `ai-stream` per accepted delta, in order, then `ai-done` with their concatenation |

## Left out

- Mutex locking and poisoning: each command's `state.0.lock()` error and the `stderr_log` lock are not modelled, because the model has no threads. A command runs atomically.
- The stdout-draining and stderr-collecting threads of the proxy: what stderr has delivered by the time the poll gives up is a parameter (`stderrLines`). Its accumulation is modelled as `AccumulateStderr`.
- The stdout and stderr handles of the spawned proxy are assumed present. The `take()` returning None is not modelled, because piped handles are always present after a successful spawn.
- Sleeps and timeouts (500 ms between probes, the 400 ms client timeout): time is not modelled. The probe outcomes are a parameter.
- `eprintln!` logging: it has no effect on results.
- `String::from_utf8_lossy`: PTY output events carry the raw bytes read, and AI response chunks arrive as already-decoded text. Lossy decoding is not modelled.
- JSON handling: `serde_json` parsing of a data payload and the `delta.text` lookup are the parameter `extract`. The request body is a datatype, not serialised JSON.
- HTTP, the PTY system, `which`, `dirs::home_dir`, `read_dir`, `Kubeconfig::read_from` and `Child::kill`: these foreign calls are parameters (the `Host` value, error options, outcome sequences). `Kill` records only that a kill was requested.
- `Proxy.Join`: it models `Path::join` of a relative name on '/'-separated strings. Windows `\` separators and `Path::display` are not modelled.
- `Sorting.Sort`: `Vec<PathBuf>::sort` compares paths component by component. The model compares the joined strings instead. Paths of one directory share every component but the last, and `Proxy.JoinOrder` proves that two such paths compare as their file names do, so both give the same order for a single scanned directory.
- `Proxy.KubeDirsToScan`: it uses the corrected conversion `Proxy.WindowsHomeInWsl`, and so do `Proxy.FindKubeconfigForContext`, `Proxy.ResolveKubeconfig`, `Proxy.ProxyArgs` and `Proxy.KubectlProxy.Start`, which depend on it. With no explicit kubeconfig file and a non-ASCII drive character in `USERPROFILE`, the source scans `/mnt/é:/x/.kube` for `é:\x`, where the model scans `/mnt/é/x/.kube`; for `中:\x` the source panics, where the model scans `/mnt/中/x/.kube`. The as-written conversion is stated on its own (`Proxy.WindowsHomeInWslAsWritten`), as listed under "## Findings".
- `Exec.PtySessionInner.Resize`: a failed resize is assumed to keep the old size. The PTY library does not say.
- `Ai.ProcessChunks`: like the code, it cuts every chunk into lines on its own. A server event split across two chunks reaches `extract` in pieces; the model reproduces this and does not rejoin them.
- No literal profile such as `C:\Users\7va` is evaluated. The conversion is stated once for every drive and path (`Proxy.WindowsHomeOfDrive`).

## Findings

| source | as written | input that shows it | evidently intended | confidence | as-written member | corrected member |
|---|---|---|---|---|---|---|
| src-tauri/src/commands/proxy.rs:45 | the drive and the ':' are read as characters, but the rest is cut with `profile[2..]`, a byte offset; after a two-byte drive character the cut keeps the ':' | `USERPROFILE` = `é:\x` gives `/mnt/é:/x` | cut after the second character: `/mnt/é/x` | low (only a non-ASCII drive character shows it); not executed | `Proxy.AsWrittenKeepsColon` | `Proxy.WindowsHomeInWsl` |
| src-tauri/src/commands/proxy.rs:45 | after a drive character of three or more bytes, byte 2 falls inside it and the slice panics | `USERPROFILE` = `中:\x` panics | `/mnt/中/x` | low (only a non-ASCII drive character shows it); not executed | `Proxy.AsWrittenPanics` | `Proxy.WindowsHomeOfDrive` |
