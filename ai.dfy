/** AI analysis, src-tauri/src/commands/ai.rs: analyze_with_ai checks for the
    API key, picks the prompt by mode, sends one streaming Messages request,
    and folds the response chunks into `ai-stream` events and a final
    `ai-done` event that carries the whole text. */
module Ai {
  import opened Wrappers
  import opened Text

  const NoKeyError := "ANTHROPIC_API_KEY not set"
  const RequestFailedPrefix := "API request failed: "
  const DataPrefix := "data: "
  const DoneMarker := "[DONE]"

  // ---------------------------------------------------------------------------
  // The prompt

  /** The answer format both prompts ask for. */
  const ResponseFormat :=
    "Respond ONLY with a JSON object:\n{\n\"insights\": [\n{\n"
    + "\"type\": \"critical\" | \"warning\" | \"suggestion\",\n\"title\": \"Short title\",\n"
    + "\"body\": \"Explanation\",\n\"command\": \"kubectl command if applicable (optional)\"\n}\n]\n}\n\n"

  /** The opening words both prompts share. */
  const Opening := "You are a Kubernetes operations expert. Analyze "

  /** Everything of the logs prompt before the output. */
  const LogsPreamble :=
    Opening + "these pod logs and identify:\n"
    + "1. Any errors, crashes, panics, or fatal issues\n2. Warnings or concerning patterns\n"
    + "3. Root cause analysis if possible\n4. Specific actionable kubectl commands to fix issues\n\n"
    + ResponseFormat + "Pod logs:\n"

  /** Everything of the describe prompt before the output. */
  const DescribePreamble :=
    Opening + "this kubectl describe output and identify:\n"
    + "1. Any errors, crashes, or critical issues\n2. Warnings or concerning patterns\n"
    + "3. Specific actionable kubectl commands to fix issues\n\n"
    + ResponseFormat + "kubectl describe output:\n"

  function Preamble(mode: string): string {
    if mode == "logs" then LogsPreamble else DescribePreamble
  }

  /** The prompt: the preamble of the mode followed by the output text. */
  function SelectPrompt(mode: string, output: string): string {
    Preamble(mode) + output
  }

  /** Only the exact mode "logs" selects the logs prompt, every other mode the
      describe prompt, and the output is the whole rest of the prompt: mode
      and output can be read back from it. */
  lemma SelectPromptReadBack(mode: string, output: string)
    ensures var p := SelectPrompt(mode, output);
      (StartsWith(p, LogsPreamble) <==> mode == "logs")
      && (StartsWith(p, DescribePreamble) <==> mode != "logs")
      && p[|Preamble(mode)|..] == output
  {
    var n := |Opening| + 2;
    PreamblesDiffer(n);
    if mode == "logs" {
      PrefixReadBack(LogsPreamble, DescribePreamble, n, output);
    } else {
      PrefixReadBack(DescribePreamble, LogsPreamble, n, output);
    }
  }

  /** The two preambles differ at the third letter after the opening words
      ("these" and "this"). */
  lemma PreamblesDiffer(n: nat)
    requires n == |Opening| + 2
    ensures n < |LogsPreamble| && n < |DescribePreamble| && LogsPreamble[n] != DescribePreamble[n]
  {
    assert (Opening + "these pod logs and identify:\n")[n] == 'e';
    assert (Opening + "this kubectl describe output and identify:\n")[n] == 'i';
  }

  /** A text that starts with `a` does not start with a `b` that differs from
      `a` at `n`, and what follows `a` is the rest. */
  lemma PrefixReadBack(a: string, b: string, n: nat, rest: string)
    requires n < |a| && n < |b| && a[n] != b[n]
    ensures StartsWith(a + rest, a) && !StartsWith(a + rest, b) && (a + rest)[|a|..] == rest
  {
    var p := a + rest;
    assert p[..|a|] == a;
    assert |b| <= |p| ==> p[..|b|][n] == p[n] == a[n];
  }

  // ---------------------------------------------------------------------------
  // The request

  datatype Message = Message(role: string, content: string)
  datatype RequestBody = RequestBody(model: string, maxTokens: nat, stream: bool, messages: seq<Message>)
  datatype Request = Request(url: string, headers: seq<(string, string)>, body: RequestBody)

  /** The POST to the Messages endpoint. */
  function BuildRequest(apiKey: string, prompt: string): Request {
    Request("https://api.anthropic.com/v1/messages",
            [("x-api-key", apiKey), ("anthropic-version", "2023-06-01"), ("content-type", "application/json")],
            RequestBody("claude-sonnet-4-6", 1024, true, [Message("user", prompt)]))
  }

  // ---------------------------------------------------------------------------
  // The stream

  /** One `response.chunk()`: the text of a chunk, or a read error.  The end of
      the sequence is the end of the body. */
  datatype ChunkResult = Chunk(text: string) | ChunkError(error: string)

  /** An `ai-stream` event carries one delta, `ai-done` the whole buffer.  Every
      emit call is recorded, the one that fails included. */
  datatype AiEvent = AiStream(delta: string) | AiDone(buffer: string)

  /** The command's mutable state: the buffer and the events emitted so far. */
  datatype Acc = Acc(buffer: string, events: seq<AiEvent>)

  /** Where a run over the lines of one chunk ends: with every line taken, at
      the `[DONE]` line, or at an emit that failed. */
  datatype LinesOutcome = Continue(acc: Acc) | Stop(acc: Acc) | Fail(error: string, acc: Acc)

  /** Where the run over the chunks ends: at the end of the body or `[DONE]`,
      or at a failure. */
  datatype ChunksOutcome = Ended(acc: Acc) | Failed(error: string, acc: Acc)

  /** A line that counts: it starts with exactly "data: ". */
  predicate IsDataLine(line: string) {
    StartsWith(line, DataPrefix)
  }

  /** The payload of a data line. */
  function Payload(line: string): string
    requires IsDataLine(line)
  {
    line[|DataPrefix|..]
  }

  predicate IsDoneLine(line: string) {
    IsDataLine(line) && Trim(Payload(line)) == DoneMarker
  }

  /** Appends a delta to the buffer and records its `ai-stream` emit. */
  function Push(acc: Acc, delta: string): Acc {
    Acc(acc.buffer + delta, acc.events + [AiStream(delta)])
  }

  /** The inner loop over the lines of one chunk.  `extract` is the JSON step:
      the string at `delta.text` of a payload, None when the payload does not
      parse or has no such string.  `emitErrors` maps the emit calls that
      fail, counted from 0 over the whole run, to their error. */
  function ProcessLines(lines: seq<string>, acc: Acc, extract: string -> Option<string>,
                        emitErrors: map<nat, string>): LinesOutcome
  {
    if lines == [] then Continue(acc)
    else if !IsDataLine(lines[0]) then ProcessLines(lines[1..], acc, extract, emitErrors)
    else if IsDoneLine(lines[0]) then Stop(acc)
    else match extract(Payload(lines[0]))
      case None => ProcessLines(lines[1..], acc, extract, emitErrors)
      case Some(delta) =>
        if |acc.events| in emitErrors then Fail(emitErrors[|acc.events|], Push(acc, delta))
        else ProcessLines(lines[1..], Push(acc, delta), extract, emitErrors)
  }

  /** The outer loop over the chunks: each chunk is cut into lines on its own,
      so a line split between two chunks is seen as two lines. */
  function ProcessChunks(chunks: seq<ChunkResult>, acc: Acc, extract: string -> Option<string>,
                         emitErrors: map<nat, string>): ChunksOutcome
  {
    if chunks == [] then Ended(acc)
    else match chunks[0]
      case ChunkError(e) => Failed(e, acc)
      case Chunk(text) =>
        match ProcessLines(Lines(text), acc, extract, emitErrors)
        case Continue(a) => ProcessChunks(chunks[1..], a, extract, emitErrors)
        case Stop(a) => Ended(a)
        case Fail(e, a) => Failed(e, a)
  }

  /** What one call of analyze_with_ai does: its result, the request it sends
      (if any) and the events it emits. */
  datatype AnalyzeRun = AnalyzeRun(result: Result<()>, request: Option<Request>, events: seq<AiEvent>)

  /** What reading the response body yields: the result and the events.  On
      the end of the body or `[DONE]`, `ai-done` is emitted with the buffer. */
  datatype StreamRun = StreamRun(result: Result<()>, events: seq<AiEvent>)

  function Stream(chunks: seq<ChunkResult>, extract: string -> Option<string>,
                  emitErrors: map<nat, string>): StreamRun
  {
    match ProcessChunks(chunks, Acc("", []), extract, emitErrors)
    case Failed(e, a) => StreamRun(Err(e), a.events)
    case Ended(a) =>
      var events := a.events + [AiDone(a.buffer)];
      if |a.events| in emitErrors then StreamRun(Err(emitErrors[|a.events|]), events)
      else StreamRun(Ok(()), events)
  }

  /** analyze_with_ai.  `apiKey` is the ANTHROPIC_API_KEY variable, `sendError`
      the failure of sending the request, `chunks` the body. */
  function Analyze(apiKey: Option<string>, output: string, mode: string, sendError: Option<string>,
                   chunks: seq<ChunkResult>, extract: string -> Option<string>,
                   emitErrors: map<nat, string>): AnalyzeRun
  {
    if apiKey.None? then AnalyzeRun(Err(NoKeyError), None, [])
    else
      var request := Some(BuildRequest(apiKey.value, SelectPrompt(mode, output)));
      if sendError.Some? then AnalyzeRun(Err(RequestFailedPrefix + sendError.value), request, [])
      else
        var run := Stream(chunks, extract, emitErrors);
        AnalyzeRun(run.result, request, run.events)
  }

  /** One step of the line loop, at line `j`. */
  lemma LinesStep(lines: seq<string>, j: nat, acc: Acc, extract: string -> Option<string>,
                  emitErrors: map<nat, string>)
    requires j < |lines|
    ensures ProcessLines(lines[j..], acc, extract, emitErrors) ==
      if !IsDataLine(lines[j]) then ProcessLines(lines[j + 1..], acc, extract, emitErrors)
      else if IsDoneLine(lines[j]) then Stop(acc)
      else
        var d := extract(Payload(lines[j]));
        if d.None? then ProcessLines(lines[j + 1..], acc, extract, emitErrors)
        else if |acc.events| in emitErrors then Fail(emitErrors[|acc.events|], Push(acc, d.value))
        else ProcessLines(lines[j + 1..], Push(acc, d.value), extract, emitErrors)
  {
    assert lines[j..][0] == lines[j] && lines[j..][1..] == lines[j + 1..];
  }

  /** One step of the chunk loop, at chunk `i`. */
  lemma ChunksStep(chunks: seq<ChunkResult>, i: nat, acc: Acc, extract: string -> Option<string>,
                   emitErrors: map<nat, string>)
    requires i < |chunks|
    ensures ProcessChunks(chunks[i..], acc, extract, emitErrors) ==
      if chunks[i].ChunkError? then Failed(chunks[i].error, acc)
      else
        var o := ProcessLines(Lines(chunks[i].text), acc, extract, emitErrors);
        if o.Continue? then ProcessChunks(chunks[i + 1..], o.acc, extract, emitErrors)
        else if o.Stop? then Ended(o.acc)
        else Failed(o.error, o.acc)
  {
    assert chunks[i..][0] == chunks[i] && chunks[i..][1..] == chunks[i + 1..];
  }

  /** The command as the code runs it: the key check, the prompt, the request,
      then the body. */
  method AnalyzeWithAi(apiKey: Option<string>, output: string, mode: string, sendError: Option<string>,
                       chunks: seq<ChunkResult>, extract: string -> Option<string>,
                       emitErrors: map<nat, string>)
      returns (result: Result<()>, request: Option<Request>, events: seq<AiEvent>)
    ensures AnalyzeRun(result, request, events) == Analyze(apiKey, output, mode, sendError, chunks, extract, emitErrors)
  {
    if apiKey.None? {
      return Err(NoKeyError), None, [];
    }
    var prompt := SelectPrompt(mode, output);
    request := Some(BuildRequest(apiKey.value, prompt));
    if sendError.Some? {
      return Err(RequestFailedPrefix + sendError.value), request, [];
    }
    result, events := ReadStream(chunks, extract, emitErrors);
  }

  /** The body loop of analyze_with_ai: a `while !done` loop over the chunks
      with a `for` loop over each chunk's lines inside, a mutable buffer, and
      early returns on errors. */
  method ReadStream(chunks: seq<ChunkResult>, extract: string -> Option<string>, emitErrors: map<nat, string>)
      returns (result: Result<()>, events: seq<AiEvent>)
    ensures StreamRun(result, events) == Stream(chunks, extract, emitErrors)
  {
    events := [];
    var buffer := "";
    var done := false;
    var i := 0;
    ghost var start := Acc("", []);
    while !done
      invariant i <= |chunks|
      invariant !done ==> ProcessChunks(chunks, start, extract, emitErrors)
                          == ProcessChunks(chunks[i..], Acc(buffer, events), extract, emitErrors)
      invariant done ==> ProcessChunks(chunks, start, extract, emitErrors) == Ended(Acc(buffer, events))
      decreases |chunks| - i + (if done then 0 else 1)
    {
      if i == |chunks| {
        break;
      }
      ChunksStep(chunks, i, Acc(buffer, events), extract, emitErrors);
      match chunks[i]
      case ChunkError(e) => {
        return Err(e), events;
      }
      case Chunk(text) => {
        var lines := Lines(text);
        ghost var before := Acc(buffer, events);
        for j := 0 to |lines|
          invariant ProcessLines(lines, before, extract, emitErrors)
                    == ProcessLines(lines[j..], Acc(buffer, events), extract, emitErrors)
        {
          LinesStep(lines, j, Acc(buffer, events), extract, emitErrors);
          var line := lines[j];
          if StartsWith(line, DataPrefix) {
            var data := line[|DataPrefix|..];
            if Trim(data) == DoneMarker {
              done := true;
              break;
            }
            var delta := extract(data);
            if delta.Some? {
              buffer := buffer + delta.value;
              var emitIndex := |events|;
              events := events + [AiStream(delta.value)];
              if emitIndex in emitErrors {
                return Err(emitErrors[emitIndex]), events;
              }
            }
          }
        }
        i := i + 1;
      }
    }
    var doneIndex := |events|;
    events := events + [AiDone(buffer)];
    if doneIndex in emitErrors {
      return Err(emitErrors[doneIndex]), events;
    }
    result := Ok(());
  }

  // ---------------------------------------------------------------------------
  // Properties of the stream

  /** The deltas of the `ai-stream` events, in order, joined. */
  function Deltas(events: seq<AiEvent>): string {
    if events == [] then []
    else Deltas(events[..|events| - 1]) + (match events[|events| - 1] case AiStream(d) => d case AiDone(_) => [])
  }

  /** A state of the loop: only `ai-stream` events so far, and the buffer is
      their deltas joined. */
  ghost predicate Consistent(acc: Acc) {
    (forall k :: 0 <= k < |acc.events| ==> acc.events[k].AiStream?) && acc.buffer == Deltas(acc.events)
  }

  lemma PushConsistent(acc: Acc, delta: string)
    requires Consistent(acc)
    ensures Consistent(Push(acc, delta)) && acc.events <= Push(acc, delta).events
  {
    var events := acc.events + [AiStream(delta)];
    assert events[..|events| - 1] == acc.events;
  }

  /** The line loop keeps the buffer equal to the emitted deltas and only adds
      events. */
  lemma {:induction false} ProcessLinesConsistent(lines: seq<string>, acc: Acc, extract: string -> Option<string>,
                                                 emitErrors: map<nat, string>)
    requires Consistent(acc)
    ensures Consistent(ProcessLines(lines, acc, extract, emitErrors).acc)
    ensures acc.events <= ProcessLines(lines, acc, extract, emitErrors).acc.events
  {
    if lines != [] && IsDataLine(lines[0]) && !IsDoneLine(lines[0]) {
      var d := extract(Payload(lines[0]));
      if d.Some? {
        PushConsistent(acc, d.value);
        if |acc.events| !in emitErrors {
          ProcessLinesConsistent(lines[1..], Push(acc, d.value), extract, emitErrors);
        }
      } else {
        ProcessLinesConsistent(lines[1..], acc, extract, emitErrors);
      }
    } else if lines != [] && !IsDataLine(lines[0]) {
      ProcessLinesConsistent(lines[1..], acc, extract, emitErrors);
    }
  }

  lemma {:induction false} ProcessChunksConsistent(chunks: seq<ChunkResult>, acc: Acc, extract: string -> Option<string>,
                                                  emitErrors: map<nat, string>)
    requires Consistent(acc)
    ensures Consistent(ProcessChunks(chunks, acc, extract, emitErrors).acc)
  {
    if chunks != [] && chunks[0].Chunk? {
      var ls := ProcessLines(Lines(chunks[0].text), acc, extract, emitErrors);
      ProcessLinesConsistent(Lines(chunks[0].text), acc, extract, emitErrors);
      if ls.Continue? {
        ProcessChunksConsistent(chunks[1..], ls.acc, extract, emitErrors);
      }
    }
  }

  /** The events of reading the body: every event but the last is an
      `ai-stream`; an `ai-done` is only ever the last event and carries the
      deltas joined; a successful read ends with one. */
  lemma StreamEvents(chunks: seq<ChunkResult>, extract: string -> Option<string>, emitErrors: map<nat, string>)
    ensures var r := Stream(chunks, extract, emitErrors);
      (forall k :: 0 <= k < |r.events| - 1 ==> r.events[k].AiStream?)
      && (forall k :: 0 <= k < |r.events| && r.events[k].AiDone?
            ==> k == |r.events| - 1 && r.events[k].buffer == Deltas(r.events[..k]))
      && (r.result.Ok? ==> r.events != [] && r.events[|r.events| - 1] == AiDone(Deltas(r.events[..|r.events| - 1])))
  {
    var outcome := ProcessChunks(chunks, Acc("", []), extract, emitErrors);
    ProcessChunksConsistent(chunks, Acc("", []), extract, emitErrors);
    if outcome.Ended? {
      var events := outcome.acc.events + [AiDone(outcome.acc.buffer)];
      assert events[..|events| - 1] == outcome.acc.events;
    }
  }

  /** A run of the command: without the key nothing is sent and nothing
      emitted; otherwise the key goes in `x-api-key`, the body asks the model
      for at most 1024 tokens, streamed, with the prompt as the one user
      message; a failed send emits nothing; and the events are those of the body, so a
      successful run ends with `ai-done` carrying every delta. */
  lemma AnalyzeEvents(apiKey: Option<string>, output: string, mode: string, sendError: Option<string>,
                      chunks: seq<ChunkResult>, extract: string -> Option<string>, emitErrors: map<nat, string>)
    ensures var r := Analyze(apiKey, output, mode, sendError, chunks, extract, emitErrors);
      (apiKey.None? ==> r == AnalyzeRun(Err(NoKeyError), None, []))
      && (apiKey.Some? ==>
            r.request.Some? && r.request.value.url == "https://api.anthropic.com/v1/messages"
            && ("x-api-key", apiKey.value) in r.request.value.headers
            && r.request.value.body == RequestBody("claude-sonnet-4-6", 1024, true, [Message("user", SelectPrompt(mode, output))]))
      && (apiKey.Some? && sendError.Some? ==> r.result == Err(RequestFailedPrefix + sendError.value) && r.events == [])
      && (apiKey.Some? && sendError.None? ==>
            r.result == Stream(chunks, extract, emitErrors).result && r.events == Stream(chunks, extract, emitErrors).events)
      && (forall k :: 0 <= k < |r.events| - 1 ==> r.events[k].AiStream?)
      && (r.result.Ok? ==> r.events != [] && r.events[|r.events| - 1] == AiDone(Deltas(r.events[..|r.events| - 1])))
  {
    StreamEvents(chunks, extract, emitErrors);
  }

  /** A chunk read error, or an `ai-stream` emit that fails, ends the run with
      an error and no `ai-done`. */
  lemma FailureWithoutDone(chunks: seq<ChunkResult>, acc: Acc, extract: string -> Option<string>, emitErrors: map<nat, string>)
    requires Consistent(acc)
    ensures ProcessChunks(chunks, acc, extract, emitErrors).Failed? ==>
      forall k :: 0 <= k < |ProcessChunks(chunks, acc, extract, emitErrors).acc.events|
        ==> ProcessChunks(chunks, acc, extract, emitErrors).acc.events[k].AiStream?
  {
    ProcessChunksConsistent(chunks, acc, extract, emitErrors);
  }

  /** The `[DONE]` line ends everything: no later line of its chunk and no
      later chunk is looked at. */
  lemma DoneCutsOff(done: string, later: seq<string>, text: string, laterChunks: seq<ChunkResult>, acc: Acc,
                    extract: string -> Option<string>, emitErrors: map<nat, string>)
    requires IsDoneLine(done)
    ensures ProcessLines([done] + later, acc, extract, emitErrors) == Stop(acc)
    ensures ProcessLines(Lines(text), acc, extract, emitErrors).Stop? ==>
      ProcessChunks([Chunk(text)] + laterChunks, acc, extract, emitErrors)
        == Ended(ProcessLines(Lines(text), acc, extract, emitErrors).acc)
  {
    assert ([Chunk(text)] + laterChunks)[0] == Chunk(text);
  }

  /** The data lines of a sequence, in order. */
  function DataLines(lines: seq<string>): (r: seq<string>)
    ensures forall k :: 0 <= k < |r| ==> IsDataLine(r[k])
  {
    if lines == [] then []
    else if IsDataLine(lines[0]) then [lines[0]] + DataLines(lines[1..])
    else DataLines(lines[1..])
  }

  /** Lines without the "data: " prefix are ignored: the loop over all lines
      ends as the loop over the data lines alone does. */
  lemma {:induction false} NonDataLinesIgnored(lines: seq<string>, acc: Acc, extract: string -> Option<string>,
                                               emitErrors: map<nat, string>)
    ensures ProcessLines(lines, acc, extract, emitErrors) == ProcessLines(DataLines(lines), acc, extract, emitErrors)
  {
    if lines != [] {
      if !IsDataLine(lines[0]) {
        NonDataLinesIgnored(lines[1..], acc, extract, emitErrors);
      } else {
        var rest := DataLines(lines[1..]);
        assert DataLines(lines) == [lines[0]] + rest;
        assert ([lines[0]] + rest)[1..] == rest;
        if !IsDoneLine(lines[0]) {
          match extract(Payload(lines[0]))
          case None =>
            NonDataLinesIgnored(lines[1..], acc, extract, emitErrors);
          case Some(delta) =>
            NonDataLinesIgnored(lines[1..], Push(acc, delta), extract, emitErrors);
        }
      }
    }
  }

  // ---------------------------------------------------------------------------
  // The deltas the stream accepts, stated without the loop

  /** The deltas of the data lines before the first `[DONE]` line, in order. */
  function Accepted(lines: seq<string>, extract: string -> Option<string>): seq<string> {
    if lines == [] then []
    else if !IsDataLine(lines[0]) then Accepted(lines[1..], extract)
    else if IsDoneLine(lines[0]) then []
    else match extract(Payload(lines[0]))
      case None => Accepted(lines[1..], extract)
      case Some(delta) => [delta] + Accepted(lines[1..], extract)
  }

  predicate HasDone(lines: seq<string>) {
    exists k :: 0 <= k < |lines| && IsDoneLine(lines[k])
  }

  /** The deltas of a body: those of each chunk in turn, until a chunk error or
      a chunk holding `[DONE]`. */
  function AcceptedChunks(chunks: seq<ChunkResult>, extract: string -> Option<string>): seq<string> {
    if chunks == [] || chunks[0].ChunkError? then []
    else
      var lines := Lines(chunks[0].text);
      Accepted(lines, extract) + (if HasDone(lines) then [] else AcceptedChunks(chunks[1..], extract))
  }

  function Concat(ds: seq<string>): string {
    if ds == [] then [] else ds[0] + Concat(ds[1..])
  }

  function Streams(ds: seq<string>): seq<AiEvent> {
    if ds == [] then [] else [AiStream(ds[0])] + Streams(ds[1..])
  }

  lemma {:induction false} ConcatAppend(a: seq<string>, b: seq<string>)
    ensures Concat(a + b) == Concat(a) + Concat(b) && Streams(a + b) == Streams(a) + Streams(b)
  {
    if a == [] {
      assert a + b == b;
    } else {
      assert (a + b)[0] == a[0] && (a + b)[1..] == a[1..] + b;
      ConcatAppend(a[1..], b);
    }
  }

  lemma ConcatCons(d: string, ds: seq<string>)
    ensures Concat([d] + ds) == d + Concat(ds) && Streams([d] + ds) == [AiStream(d)] + Streams(ds)
  {
    assert ([d] + ds)[0] == d && ([d] + ds)[1..] == ds;
  }

  lemma HasDoneTail(lines: seq<string>)
    requires lines != [] && !IsDoneLine(lines[0])
    ensures HasDone(lines) <==> HasDone(lines[1..])
  {
    if HasDone(lines) {
      var k :| 0 <= k < |lines| && IsDoneLine(lines[k]);
      assert lines[1..][k - 1] == lines[k];
    }
    if HasDone(lines[1..]) {
      var k :| 0 <= k < |lines[1..]| && IsDoneLine(lines[1..][k]);
      assert lines[k + 1] == lines[1..][k];
    }
  }

  /** With no failing emit, the line loop appends exactly the accepted deltas,
      to the buffer and as `ai-stream` events in the same order, and stops
      early exactly when the chunk holds a `[DONE]` line. */
  lemma {:induction false} LinesEmitAccepted(lines: seq<string>, acc: Acc, extract: string -> Option<string>)
    ensures LinesAcceptedOutcome(lines, acc, extract)
  {
    if lines == [] || IsDoneLine(lines[0]) {
      assert acc.buffer + [] == acc.buffer && acc.events + [] == acc.events;
    } else if IsDataLine(lines[0]) && extract(Payload(lines[0])).Some? {
      var d := extract(Payload(lines[0])).value;
      LinesEmitAccepted(lines[1..], Push(acc, d), extract);
      LineDelta(lines, acc, extract, d);
    } else {
      LinesEmitAccepted(lines[1..], acc, extract);
      LineSkipped(lines, acc, extract);
    }
  }

  /** What the line loop does with no failing emit, in terms of `Accepted`. */
  ghost predicate LinesAcceptedOutcome(lines: seq<string>, acc: Acc, extract: string -> Option<string>) {
    var o := ProcessLines(lines, acc, extract, map[]);
    !o.Fail? && (o.Stop? <==> HasDone(lines))
    && o.acc == Acc(acc.buffer + Concat(Accepted(lines, extract)), acc.events + Streams(Accepted(lines, extract)))
  }

  lemma LineDelta(lines: seq<string>, acc: Acc, extract: string -> Option<string>, d: string)
    requires lines != [] && IsDataLine(lines[0]) && !IsDoneLine(lines[0]) && extract(Payload(lines[0])) == Some(d)
    requires LinesAcceptedOutcome(lines[1..], Push(acc, d), extract)
    ensures LinesAcceptedOutcome(lines, acc, extract)
  {
    HasDoneTail(lines);
    var rest := Accepted(lines[1..], extract);
    assert Accepted(lines, extract) == [d] + rest;
    ConcatCons(d, rest);
    assert acc.buffer + d + Concat(rest) == acc.buffer + (d + Concat(rest));
    assert acc.events + [AiStream(d)] + Streams(rest) == acc.events + ([AiStream(d)] + Streams(rest));
  }

  lemma LineSkipped(lines: seq<string>, acc: Acc, extract: string -> Option<string>)
    requires lines != [] && !IsDoneLine(lines[0])
    requires !IsDataLine(lines[0]) || extract(Payload(lines[0])).None?
    requires LinesAcceptedOutcome(lines[1..], acc, extract)
    ensures LinesAcceptedOutcome(lines, acc, extract)
  {
    HasDoneTail(lines);
  }

  /** With no failing emit and no chunk error, the chunk loop appends exactly
      the accepted deltas of the body. */
  lemma {:induction false} ChunksEmitAccepted(chunks: seq<ChunkResult>, acc: Acc, extract: string -> Option<string>)
    requires forall k :: 0 <= k < |chunks| ==> chunks[k].Chunk?
    ensures ProcessChunks(chunks, acc, extract, map[])
      == Ended(Acc(acc.buffer + Concat(AcceptedChunks(chunks, extract)), acc.events + Streams(AcceptedChunks(chunks, extract))))
  {
    if chunks == [] {
      assert acc.buffer + [] == acc.buffer && acc.events + [] == acc.events;
    } else {
      var lines := Lines(chunks[0].text);
      LinesEmitAccepted(lines, acc, extract);
      if HasDone(lines) {
        ChunkWithDone(chunks, acc, extract);
      } else {
        var a := ProcessLines(lines, acc, extract, map[]).acc;
        ChunksEmitAccepted(chunks[1..], a, extract);
        ChunkWithoutDone(chunks, acc, extract, a);
      }
    }
  }

  lemma ChunkWithDone(chunks: seq<ChunkResult>, acc: Acc, extract: string -> Option<string>)
    requires chunks != [] && chunks[0].Chunk? && HasDone(Lines(chunks[0].text))
    requires LinesAcceptedOutcome(Lines(chunks[0].text), acc, extract)
    ensures ProcessChunks(chunks, acc, extract, map[])
      == Ended(Acc(acc.buffer + Concat(AcceptedChunks(chunks, extract)), acc.events + Streams(AcceptedChunks(chunks, extract))))
  {
    var first := Accepted(Lines(chunks[0].text), extract);
    assert AcceptedChunks(chunks, extract) == first + [];
    assert first + [] == first;
  }

  lemma ChunkWithoutDone(chunks: seq<ChunkResult>, acc: Acc, extract: string -> Option<string>, a: Acc)
    requires chunks != [] && chunks[0].Chunk? && !HasDone(Lines(chunks[0].text))
    requires ProcessLines(Lines(chunks[0].text), acc, extract, map[]) == Continue(a)
    requires var first := Accepted(Lines(chunks[0].text), extract);
      a == Acc(acc.buffer + Concat(first), acc.events + Streams(first))
    requires ProcessChunks(chunks[1..], a, extract, map[])
      == Ended(Acc(a.buffer + Concat(AcceptedChunks(chunks[1..], extract)), a.events + Streams(AcceptedChunks(chunks[1..], extract))))
    ensures ProcessChunks(chunks, acc, extract, map[])
      == Ended(Acc(acc.buffer + Concat(AcceptedChunks(chunks, extract)), acc.events + Streams(AcceptedChunks(chunks, extract))))
  {
    var first := Accepted(Lines(chunks[0].text), extract);
    var later := AcceptedChunks(chunks[1..], extract);
    assert ProcessChunks(chunks, acc, extract, map[]) == ProcessChunks(chunks[1..], a, extract, map[]);
    assert AcceptedChunks(chunks, extract) == first + later;
    ConcatAppend(first, later);
    AppendAssoc(acc.buffer, Concat(first), Concat(later));
    AppendAssoc(acc.events, Streams(first), Streams(later));
  }

  lemma AppendAssoc<T>(x: seq<T>, y: seq<T>, z: seq<T>)
    ensures (x + y) + z == x + (y + z)
  {
  }

  /** A body that reads without error and whose emits all succeed yields Ok:
      one `ai-stream` per accepted delta, in order, then `ai-done` with the
      deltas joined. */
  lemma StreamOfAcceptedDeltas(chunks: seq<ChunkResult>, extract: string -> Option<string>)
    requires forall k :: 0 <= k < |chunks| ==> chunks[k].Chunk?
    ensures Stream(chunks, extract, map[]) == StreamRun(Ok(()),
      Streams(AcceptedChunks(chunks, extract)) + [AiDone(Concat(AcceptedChunks(chunks, extract)))])
  {
    ChunksEmitAccepted(chunks, Acc("", []), extract);
    assert "" + Concat(AcceptedChunks(chunks, extract)) == Concat(AcceptedChunks(chunks, extract));
    assert [] + Streams(AcceptedChunks(chunks, extract)) == Streams(AcceptedChunks(chunks, extract));
  }

  /** A data line whose payload is not `[DONE]` and yields no delta is skipped
      without error, like a line that is not a data line. */
  lemma UnusableLineSkipped(line: string, rest: seq<string>, acc: Acc, extract: string -> Option<string>,
                            emitErrors: map<nat, string>)
    requires !IsDataLine(line) || (!IsDoneLine(line) && extract(Payload(line)).None?)
    ensures ProcessLines([line] + rest, acc, extract, emitErrors) == ProcessLines(rest, acc, extract, emitErrors)
  {
    assert ([line] + rest)[0] == line && ([line] + rest)[1..] == rest;
  }

  // ---------------------------------------------------------------------------
  // Failures of the stream

  /** The first emit index from `n` on, below `bound`, whose emit fails;
      `bound` when none does. */
  function FirstFailing(n: nat, bound: nat, emitErrors: map<nat, string>): (f: nat)
    ensures f <= bound && (n <= bound ==> n <= f)
    ensures f < bound ==> f in emitErrors
    ensures forall j :: n <= j < f ==> j !in emitErrors
    decreases bound - n
  {
    if n >= bound then bound
    else if n in emitErrors then n
    else FirstFailing(n + 1, bound, emitErrors)
  }

  /** The first chunk error the loop reaches, before any chunk holding
      `[DONE]`; None when the body ends or `[DONE]` comes first. */
  function BodyError(chunks: seq<ChunkResult>): Option<string> {
    if chunks == [] then None
    else if chunks[0].ChunkError? then Some(chunks[0].error)
    else if HasDone(Lines(chunks[0].text)) then None
    else BodyError(chunks[1..])
  }

  /** Emitting deltas one at a time, independently of lines and chunks: each
      is appended and emitted, and the first emit that fails ends it. */
  function EmitDeltas(ds: seq<string>, acc: Acc, emitErrors: map<nat, string>): (r: LinesOutcome)
    ensures !r.Stop?
  {
    if ds == [] then Continue(acc)
    else if |acc.events| in emitErrors then Fail(emitErrors[|acc.events|], Push(acc, ds[0]))
    else EmitDeltas(ds[1..], Push(acc, ds[0]), emitErrors)
  }

  /** A chunk's line loop ends as its emits do, or at `[DONE]`. */
  function EndLines(o: LinesOutcome, done: bool): LinesOutcome {
    if o.Continue? && done then Stop(o.acc) else o
  }

  /** The chunk loop ends as its emits do, or at the chunk error it reaches. */
  function EndChunks(o: LinesOutcome, error: Option<string>): ChunksOutcome {
    if o.Fail? then Failed(o.error, o.acc)
    else if error.Some? then Failed(error.value, o.acc)
    else Ended(o.acc)
  }

  lemma {:induction false} StreamsIndex(ds: seq<string>)
    ensures |Streams(ds)| == |ds| && forall j :: 0 <= j < |ds| ==> Streams(ds)[j] == AiStream(ds[j])
  {
    if ds != [] {
      StreamsIndex(ds[1..]);
      ConcatCons(ds[0], ds[1..]);
      assert ds == [ds[0]] + ds[1..];
    }
  }

  /** With no failing emit among them, every delta is appended and emitted. */
  lemma {:induction false} EmitAllDeltas(ds: seq<string>, acc: Acc, emitErrors: map<nat, string>)
    requires forall j :: |acc.events| <= j < |acc.events| + |ds| ==> j !in emitErrors
    ensures EmitDeltas(ds, acc, emitErrors) == Continue(Acc(acc.buffer + Concat(ds), acc.events + Streams(ds)))
  {
    if ds == [] {
      assert acc.buffer + [] == acc.buffer && acc.events + [] == acc.events;
    } else {
      var d, rest := ds[0], ds[1..];
      EmitAllDeltas(rest, Push(acc, d), emitErrors);
      assert ds == [d] + rest;
      ConcatCons(d, rest);
      AppendAssoc(acc.buffer, d, Concat(rest));
      AppendAssoc(acc.events, [AiStream(d)], Streams(rest));
    }
  }

  /** When the emit of delta `k` is the first that fails, the deltas up to and
      including it are appended and emitted, and that emit's error ends it. */
  lemma {:induction false} EmitFailsAt(ds: seq<string>, k: nat, acc: Acc, emitErrors: map<nat, string>)
    requires k < |ds| && |acc.events| + k in emitErrors
    requires forall j :: |acc.events| <= j < |acc.events| + k ==> j !in emitErrors
    ensures EmitDeltas(ds, acc, emitErrors)
      == Fail(emitErrors[|acc.events| + k], Acc(acc.buffer + Concat(ds[..k + 1]), acc.events + Streams(ds[..k + 1])))
  {
    var d, rest := ds[0], ds[1..];
    SliceCons(ds, k);
    if k == 0 {
      assert rest[..0] == [];
      ConcatCons(d, []);
    } else {
      EmitFailsAt(rest, k - 1, Push(acc, d), emitErrors);
      ConcatCons(d, rest[..k]);
      AppendAssoc(acc.buffer, d, Concat(rest[..k]));
      AppendAssoc(acc.events, [AiStream(d)], Streams(rest[..k]));
    }
  }

  lemma SliceCons<T>(ds: seq<T>, j: nat)
    requires j < |ds|
    ensures ds[..j + 1] == [ds[0]] + ds[1..][..j]
  {
  }

  /** Emitting two lists of deltas is emitting the first, then, unless an
      emit failed, the second. */
  lemma {:induction false} EmitDeltasAppend(a: seq<string>, b: seq<string>, acc: Acc, emitErrors: map<nat, string>)
    ensures EmitDeltas(a + b, acc, emitErrors)
      == if EmitDeltas(a, acc, emitErrors).Fail? then EmitDeltas(a, acc, emitErrors)
         else EmitDeltas(b, EmitDeltas(a, acc, emitErrors).acc, emitErrors)
  {
    if a == [] {
      assert a + b == b;
    } else {
      assert (a + b)[0] == a[0] && (a + b)[1..] == a[1..] + b;
      EmitDeltasAppend(a[1..], b, Push(acc, a[0]), emitErrors);
    }
  }

  /** The line loop with failing emits is emitting its accepted deltas,
      stopped early by `[DONE]`. */
  lemma {:induction false} LinesViaEmit(lines: seq<string>, acc: Acc, extract: string -> Option<string>,
                                        emitErrors: map<nat, string>)
    ensures ProcessLines(lines, acc, extract, emitErrors)
      == EndLines(EmitDeltas(Accepted(lines, extract), acc, emitErrors), HasDone(lines))
  {
    if lines == [] {
    } else if IsDoneLine(lines[0]) {
      assert HasDone(lines) by { assert IsDoneLine(lines[0]); }
    } else {
      HasDoneTail(lines);
      if IsDataLine(lines[0]) && extract(Payload(lines[0])).Some? {
        var d := extract(Payload(lines[0])).value;
        var rest := Accepted(lines[1..], extract);
        assert Accepted(lines, extract) == [d] + rest;
        assert ([d] + rest)[0] == d && ([d] + rest)[1..] == rest;
        if |acc.events| !in emitErrors {
          LinesViaEmit(lines[1..], Push(acc, d), extract, emitErrors);
        }
      } else {
        LinesViaEmit(lines[1..], acc, extract, emitErrors);
      }
    }
  }

  /** The chunk loop with failing emits and chunk errors is emitting the
      accepted deltas of the body, ended by the chunk error it reaches. */
  lemma {:induction false} ChunksViaEmit(chunks: seq<ChunkResult>, acc: Acc, extract: string -> Option<string>,
                                         emitErrors: map<nat, string>)
    ensures ProcessChunks(chunks, acc, extract, emitErrors)
      == EndChunks(EmitDeltas(AcceptedChunks(chunks, extract), acc, emitErrors), BodyError(chunks))
  {
    if chunks != [] && chunks[0].Chunk? {
      var lines := Lines(chunks[0].text);
      LinesViaEmit(lines, acc, extract, emitErrors);
      var first := Accepted(lines, extract);
      var o := EmitDeltas(first, acc, emitErrors);
      if HasDone(lines) {
        assert AcceptedChunks(chunks, extract) == first + [];
        assert first + [] == first;
      } else {
        assert AcceptedChunks(chunks, extract) == first + AcceptedChunks(chunks[1..], extract);
        EmitDeltasAppend(first, AcceptedChunks(chunks[1..], extract), acc, emitErrors);
        if o.Continue? {
          ChunksViaEmit(chunks[1..], o.acc, extract, emitErrors);
        } else {
          assert ProcessLines(lines, acc, extract, emitErrors) == Fail(o.error, o.acc);
        }
      }
    }
  }

  /** The body with failures, completely: the run fails at the first accepted
      delta whose `ai-stream` emit fails, having emitted the deltas up to and
      including it; failing that, at the chunk error the loop reaches, having
      emitted every accepted delta; failing that, it emits every accepted
      delta and `ai-done` with them joined, and fails only if that last emit
      does. */
  lemma StreamFailures(chunks: seq<ChunkResult>, extract: string -> Option<string>, emitErrors: map<nat, string>)
    ensures var ds := AcceptedChunks(chunks, extract);
      var f := FirstFailing(0, |ds|, emitErrors);
      var r := Stream(chunks, extract, emitErrors);
      (f < |ds| ==> r == StreamRun(Err(emitErrors[f]), Streams(ds[..f + 1])))
      && (f == |ds| && BodyError(chunks).Some? ==> r == StreamRun(Err(BodyError(chunks).value), Streams(ds)))
      && (f == |ds| && BodyError(chunks).None? ==>
            r.events == Streams(ds) + [AiDone(Concat(ds))]
            && r.result == if |ds| in emitErrors then Err(emitErrors[|ds|]) else Ok(()))
  {
    var ds := AcceptedChunks(chunks, extract);
    ChunksViaEmit(chunks, Acc("", []), extract, emitErrors);
    var f := FirstFailing(0, |ds|, emitErrors);
    if f < |ds| {
      EmitFailsAt(ds, f, Acc("", []), emitErrors);
    } else {
      EmitAllDeltas(ds, Acc("", []), emitErrors);
    }
    StreamsIndex(ds);
    assert "" + Concat(ds) == Concat(ds);
    assert [] + Streams(ds) == Streams(ds);
  }

  /** A chunk read error that the loop reaches, with every earlier emit
      succeeding, is the result, and no `ai-done` is emitted. */
  lemma ChunkErrorFails(chunks: seq<ChunkResult>, i: nat, extract: string -> Option<string>,
                        emitErrors: map<nat, string>)
    requires i < |chunks| && chunks[i].ChunkError?
    requires forall k :: 0 <= k < i ==> chunks[k].Chunk? && !HasDone(Lines(chunks[k].text))
    requires forall j :: 0 <= j < |AcceptedChunks(chunks[..i], extract)| ==> j !in emitErrors
    ensures var r := Stream(chunks, extract, emitErrors);
      r == StreamRun(Err(chunks[i].error), Streams(AcceptedChunks(chunks[..i], extract)))
      && forall j :: 0 <= j < |r.events| ==> r.events[j].AiStream?
  {
    ReachChunkError(chunks, i, extract);
    StreamFailures(chunks, extract, emitErrors);
    StreamsIndex(AcceptedChunks(chunks[..i], extract));
  }

  lemma {:induction false} ReachChunkError(chunks: seq<ChunkResult>, i: nat, extract: string -> Option<string>)
    requires i < |chunks| && chunks[i].ChunkError?
    requires forall k :: 0 <= k < i ==> chunks[k].Chunk? && !HasDone(Lines(chunks[k].text))
    ensures BodyError(chunks) == Some(chunks[i].error)
    ensures AcceptedChunks(chunks, extract) == AcceptedChunks(chunks[..i], extract)
  {
    if i > 0 {
      assert chunks[1..][i - 1] == chunks[i];
      assert forall k :: 0 <= k < i - 1 ==> chunks[1..][k] == chunks[k + 1];
      ReachChunkError(chunks[1..], i - 1, extract);
      assert chunks[..i][0] == chunks[0] && chunks[..i][1..] == chunks[1..][..i - 1];
    }
  }

  /** The k-th accepted delta's `ai-stream` emit failing, with every earlier
      one succeeding, ends the run with its error after exactly k + 1
      `ai-stream` events: the accepted deltas up to it. */
  lemma EmitFailureFails(chunks: seq<ChunkResult>, k: nat, extract: string -> Option<string>,
                         emitErrors: map<nat, string>)
    requires k < |AcceptedChunks(chunks, extract)| && k in emitErrors
    requires forall j :: 0 <= j < k ==> j !in emitErrors
    ensures var r := Stream(chunks, extract, emitErrors);
      r.result == Err(emitErrors[k]) && |r.events| == k + 1
      && forall j :: 0 <= j < |r.events| ==> r.events[j] == AiStream(AcceptedChunks(chunks, extract)[j])
  {
    var ds := AcceptedChunks(chunks, extract);
    assert FirstFailing(0, |ds|, emitErrors) == k;
    StreamFailures(chunks, extract, emitErrors);
    StreamsIndex(ds[..k + 1]);
  }
}
