/**
 * The streaming client as the code runs it: one reader object per request
 * whose buffer, accumulator map and callback log change line by line, the
 * `fetchSSE` driver that feeds it chunk by chunk, and the cancellable
 * request that owns one abort controller at a time.  Each method is proved
 * to do what the functions of `AiStream` describe.
 */
module AiStreamClient {
  import opened Wrappers
  import opened JsValues
  import opened Text
  import opened Tools
  import opened AiStream

  /** The mutable state of one `fetchSSE` call once the response body is readable. */
  class SseReader {
    const setup: Setup
    var buffer: string
    /** The keys of the accumulator `Map`, in insertion order. */
    var order: seq<int>
    var entries: map<int, Accumulator>
    /** The callbacks made so far, in order. */
    var events: seq<Event>

    function Loop(): LoopState
      reads this
    {
      LoopState(Accumulators(order, entries), events)
    }

    function State(): StreamState
      reads this
    {
      StreamState(buffer, Loop())
    }

    ghost predicate Valid()
      reads this
    {
      WellFormed(Accumulators(order, entries)) && '\n' !in buffer
    }

    constructor(setup: Setup)
      ensures this.setup == setup && State() == Initial && Valid()
    {
      this.setup := setup;
      buffer := "";
      order := [];
      entries := map[];
      events := [];
    }

    /** `finalizeParsedToolCalls`: parse every accumulator's arguments in insertion order, then clear the map. */
    method FinalizeParsedToolCalls() returns (calls: seq<ParsedToolCall>)
      modifies this
      ensures calls == FinalizeCalls(setup.parseJson, old(order), old(entries))
      ensures order == [] && entries == map[]
      ensures buffer == old(buffer) && events == old(events)
    {
      calls := [];
      var i := 0;
      while i < |order|
        invariant 0 <= i <= |order|
        invariant calls == FinalizeCalls(setup.parseJson, order[..i], entries)
      {
        assert AllButLast(order[..i + 1]) == order[..i];
        assert Last(order[..i + 1]) == order[i];
        var k := order[i];
        if k in entries {
          var acc := entries[k];
          match setup.parseJson(ArgumentsText(acc)) {
            case Some(v) => calls := calls + [ParsedToolCall(acc.id, acc.name, v)];
            case None =>
          }
        }
        i := i + 1;
      }
      assert order[..i] == order;
      order := [];
      entries := map[];
    }

    /** `data: [DONE]` and the end of the body: hand over pending calls, or else report the text done. */
    method EndStream()
      requires Valid()
      modifies this
      ensures Valid() && buffer == old(buffer)
      ensures Loop() == AiStream.Terminate(setup, old(Loop()))
    {
      if |order| > 0 {
        var calls := FinalizeParsedToolCalls();
        if setup.hasOnToolCalls {
          events := events + [ToolCalls(calls)];
        }
      } else {
        events := events + [DoneMessage];
      }
    }

    /** One entry of `delta.tool_calls` merged into its accumulator. */
    method MergeToolCall(tc: ToolCallChunk)
      modifies this
      ensures Accumulators(order, entries) == MergeChunk(old(Accumulators(order, entries)), tc)
      ensures buffer == old(buffer) && events == old(events)
    {
      var k := tc.index;
      if k !in entries {
        entries := entries[k := Accumulator(tc.id, tc.name, "")];
        order := order + [k];
      }
      var acc := entries[k];
      if tc.id != "" {
        acc := acc.(id := tc.id);
      }
      if tc.name != "" {
        acc := acc.(name := tc.name);
      }
      if tc.arguments != "" {
        acc := acc.(arguments := acc.arguments + tc.arguments);
      }
      entries := entries[k := acc];
    }

    /** A parsed frame: its text, its fragments, then its finish reason. */
    method HandleFrame(f: Frame)
      requires Valid()
      modifies this
      ensures Valid() && buffer == old(buffer)
      ensures Loop() == ApplyFrame(setup, old(Loop()), f)
    {
      ApplyFrameWellFormed(setup, Loop(), f);
      if f.delta.None? {
        return;
      }
      var d := f.delta.value;
      if d.content != "" {
        events := events + [Message(d.content, false)];
      }
      ghost var start := Accumulators(order, entries);
      var i := 0;
      while i < |d.toolCalls|
        invariant 0 <= i <= |d.toolCalls|
        invariant MergeChunks(Accumulators(order, entries), d.toolCalls[i..]) == MergeChunks(start, d.toolCalls)
        invariant buffer == old(buffer) && events == old(events) + if d.content != "" then [Message(d.content, false)] else []
      {
        assert d.toolCalls[i..][1..] == d.toolCalls[i + 1..];
        MergeToolCall(d.toolCalls[i]);
        i := i + 1;
      }
      assert d.toolCalls[i..] == [];
      if f.finishReason == Some("tool_calls") || f.finishReason == Some("function_call") {
        if |order| > 0 {
          var calls := FinalizeParsedToolCalls();
          if setup.hasOnToolCalls {
            events := events + [ToolCalls(calls)];
          }
        }
      } else if f.finishReason == Some("stop") {
        events := events + [DoneMessage];
      }
    }

    /** One complete line: trimmed, then ignored, ended on `[DONE]`, or handled as a `data: ` payload. */
    method HandleLine(line: string)
      requires Valid()
      modifies this
      ensures Valid() && buffer == old(buffer)
      ensures Loop() == AiStream.ProcessLine(setup, old(Loop()), line)
    {
      ProcessLineWellFormed(setup, Loop(), line);
      var trimmed := Trim(line);
      if trimmed == "" || trimmed == DoneLine {
        if trimmed == DoneLine {
          EndStream();
        }
        return;
      }
      if StartsWith(trimmed, DataPrefix) {
        var payload := trimmed[|DataPrefix|..];
        match setup.parseFrame(payload) {
          case None =>
            events := events + [Message(payload, false)];
          case Some(f) =>
            HandleFrame(f);
        }
      }
    }

    /** One decoded chunk: append it to the buffer, keep the unfinished last line, handle the others. */
    method Receive(chunk: string)
      requires Valid()
      modifies this
      ensures Valid()
      ensures State() == FeedChunk(setup, old(State()), chunk)
    {
      var lines := Split(buffer + chunk);
      SplitNoLineFeed(buffer + chunk);
      buffer := Last(lines);
      lines := AllButLast(lines);
      ghost var start := Loop();
      for j := 0 to |lines|
        invariant Valid() && buffer == old(Last(Split(buffer + chunk)))
        invariant Loop() == ProcessLines(setup, start, lines[..j])
      {
        ProcessLinesSnoc(setup, start, lines[..j], lines[j]);
        assert lines[..j + 1] == lines[..j] + [lines[j]];
        HandleLine(lines[j]);
      }
      assert lines[..|lines|] == lines;
      FeedChunkLines(setup, old(State()), chunk);
    }
  }

  /**
   * `fetchSSE` for one outcome of the request: the callbacks it makes, in
   * order.  A failed status or a missing body becomes a thrown error; any
   * thrown error other than an abort goes to `onError`.
   */
  method FetchSSE(setup: Setup, outcome: FetchOutcome) returns (events: seq<Event>)
    ensures events == ExchangeEvents(setup, outcome)
  {
    match outcome {
      case FetchThrew(e) =>
        events := Report(setup, e);
      case Responded(resp) =>
        if !resp.ok {
          var detail := ErrorDetail(setup.parseJson, resp.statusText, resp.errorText);
          events := Report(setup, Thrown("Error", HttpMessage(resp.status, detail)));
          return;
        }
        if !resp.hasBody {
          events := Report(setup, Thrown("Error", NoResponseBody));
          return;
        }
        var reader := new SseReader(setup);
        var i := 0;
        while i < |resp.chunks|
          invariant 0 <= i <= |resp.chunks|
          invariant reader.Valid() && reader.setup == setup
          invariant reader.State() == RunChunks(setup, Initial, resp.chunks[..i])
        {
          assert AllButLast(resp.chunks[..i + 1]) == resp.chunks[..i];
          assert Last(resp.chunks[..i + 1]) == resp.chunks[i];
          reader.Receive(resp.chunks[i]);
          i := i + 1;
        }
        assert resp.chunks[..i] == resp.chunks;
        match resp.end {
          case EndOfStream =>
            reader.EndStream();
            events := reader.events;
          case ReadThrew(e) =>
            events := reader.events + Report(setup, e);
        }
    }
  }

  /** An `AbortController` reduced to its signal's state. */
  class AbortController {
    var aborted: bool

    constructor()
      ensures !aborted
    {
      aborted := false;
    }

    method Abort()
      modifies this
      ensures aborted
    {
      aborted := true;
    }
  }

  /**
   * `createAIRequest`: `send` aborts the controller of the previous request
   * and starts the next one under a fresh controller; `cancel` aborts the
   * current one and forgets it.  `issued` records every controller handed
   * out, so that the invariant can say that all but the current one are
   * aborted.
   */
  class AIRequest {
    var controller: AbortController?
    ghost var issued: seq<AbortController>

    ghost predicate Valid()
      reads this, set i | 0 <= i < |issued| :: issued[i]
    {
      && (controller != null ==> controller in issued && !controller.aborted)
      && (forall i :: 0 <= i < |issued| && issued[i] != controller ==> issued[i].aborted)
    }

    constructor()
      ensures Valid() && controller == null && issued == []
    {
      controller := null;
      issued := [];
    }

    /** `send`: the signal handed to `fetchSSE` is the new controller's. */
    method Send() returns (signal: AbortController)
      requires Valid()
      modifies this, controller
      ensures Valid()
      ensures fresh(signal) && !signal.aborted
      ensures controller == signal && issued == old(issued) + [signal]
      ensures old(controller) != null ==> old(controller).aborted
    {
      if controller != null {
        controller.Abort();
      }
      signal := new AbortController();
      controller := signal;
      issued := issued + [signal];
    }

    /** `cancel`: abort the current request, if any, and drop its controller. */
    method Cancel()
      requires Valid()
      modifies this, controller
      ensures Valid()
      ensures controller == null && issued == old(issued)
      ensures old(controller) != null ==> old(controller).aborted
      ensures forall i :: 0 <= i < |issued| ==> issued[i].aborted
    {
      if controller != null {
        controller.Abort();
      }
      controller := null;
    }
  }
}
