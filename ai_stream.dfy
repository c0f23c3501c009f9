/**
 * The read loop of the streaming completion client, as functions of the
 * decoded text received so far.  Text arrives in chunks; it is cut into
 * lines at line feeds, the last, incomplete piece is carried over in a
 * buffer, and every complete line is trimmed and handled on its own:
 * `data: [DONE]` ends the stream, other `data: ` lines carry a JSON frame
 * with a text delta, tool-call fragments and a finish reason.  Tool-call
 * fragments are merged per index into accumulators kept in first-seen
 * order, and finalized into parsed calls when the stream ends.
 */
module AiStream {
  import opened Wrappers
  import opened JsValues
  import opened Text
  import opened Tools
  import opened SkillTypes

  const DataPrefix: string := "data: "
  const DoneLine: string := "data: [DONE]"

  /**
   * One entry of `delta.tool_calls`.  An empty string stands for a field
   * that is absent or empty: the code acts only on non-empty values.
   */
  datatype ToolCallChunk = ToolCallChunk(index: int, id: string, name: string, arguments: string)

  /** `choices[0].delta`: its text (empty when absent) and its tool-call fragments. */
  datatype Delta = Delta(content: string, toolCalls: seq<ToolCallChunk>)

  /** A parsed payload: `choices[0].delta` when present and `choices[0].finish_reason`. */
  datatype Frame = Frame(delta: Option<Delta>, finishReason: Option<string>)

  datatype Accumulator = Accumulator(id: string, name: string, arguments: string)

  /** The `Map<number, Accumulator>`: its entries and its keys in insertion order. */
  datatype Accumulators = Accumulators(order: seq<int>, entries: map<int, Accumulator>)

  /** The callbacks, in the order they are made: `onMessage`, `onToolCalls` and `onError`. */
  datatype Event =
    | Message(content: string, done: bool)
    | ToolCalls(calls: seq<ParsedToolCall>)
    | Failure(message: string)

  /**
   * What the loop depends on beyond the text: `JSON.parse` (for arguments
   * and error bodies), `JSON.parse` followed by reading the frame fields
   * (`None` when it throws), and which optional callbacks were given.
   */
  datatype Setup = Setup(
    parseJson: string -> Option<Json>,
    parseFrame: string -> Option<Frame>,
    hasOnToolCalls: bool,
    hasOnError: bool)

  datatype LoopState = LoopState(accs: Accumulators, events: seq<Event>)

  datatype StreamState = StreamState(buffer: string, loop: LoopState)

  const NoAccumulators: Accumulators := Accumulators([], map[])

  const Initial: StreamState := StreamState("", LoopState(NoAccumulators, []))

  const DoneMessage: Event := Message("", true)

  /** One accumulator per distinct index, and the insertion order lists each key once. */
  ghost predicate WellFormed(a: Accumulators)
  {
    && (forall i, j :: 0 <= i < j < |a.order| ==> a.order[i] != a.order[j])
    && Covers(a.order, a.entries)
    && (forall k :: k in a.entries ==> k in a.order)
  }

  function IdOf(a: Accumulators, k: int): string
  {
    if k in a.entries then a.entries[k].id else ""
  }

  function NameOf(a: Accumulators, k: int): string
  {
    if k in a.entries then a.entries[k].name else ""
  }

  function ArgumentsOf(a: Accumulators, k: int): string
  {
    if k in a.entries then a.entries[k].arguments else ""
  }

  /** Merging one fragment: create the accumulator on first sight, overwrite id and name only with non-empty values, append the arguments. */
  function MergeChunk(a: Accumulators, tc: ToolCallChunk): (r: Accumulators)
    ensures r.entries.Keys == a.entries.Keys + {tc.index}
    ensures tc.index !in a.entries ==> r.order == a.order + [tc.index]
    ensures tc.index in a.entries ==> r.order == a.order
    ensures forall k :: k in a.entries && k != tc.index ==> r.entries[k] == a.entries[k]
    ensures ArgumentsOf(r, tc.index) == ArgumentsOf(a, tc.index) + tc.arguments
    ensures IdOf(r, tc.index) == if tc.id != "" then tc.id else IdOf(a, tc.index)
    ensures NameOf(r, tc.index) == if tc.name != "" then tc.name else NameOf(a, tc.index)
    ensures WellFormed(a) ==> WellFormed(r)
  {
    var k := tc.index;
    var isNew := k !in a.entries;
    var acc := if isNew then Accumulator(tc.id, tc.name, "") else a.entries[k];
    var id := if tc.id != "" then tc.id else acc.id;
    var name := if tc.name != "" then tc.name else acc.name;
    var arguments := if tc.arguments != "" then acc.arguments + tc.arguments else acc.arguments;
    Accumulators(
      if isNew then a.order + [k] else a.order,
      a.entries[k := Accumulator(id, name, arguments)])
  }

  /** The `for (const tc of delta.tool_calls)` loop. */
  function MergeChunks(a: Accumulators, tcs: seq<ToolCallChunk>): Accumulators
    decreases |tcs|
  {
    if tcs == [] then a else MergeChunks(MergeChunk(a, tcs[0]), tcs[1..])
  }

  /** The argument text of every fragment for index `k`, in arrival order. */
  function ArgumentsFor(tcs: seq<ToolCallChunk>, k: int): string
  {
    if tcs == [] then ""
    else (if tcs[0].index == k then tcs[0].arguments else "") + ArgumentsFor(tcs[1..], k)
  }

  /** Reassembly: an accumulator's arguments are its old text followed by all its fragments' text, in order. */
  lemma {:induction false} MergeChunksArguments(a: Accumulators, tcs: seq<ToolCallChunk>, k: int)
    ensures ArgumentsOf(MergeChunks(a, tcs), k) == ArgumentsOf(a, k) + ArgumentsFor(tcs, k)
    decreases |tcs|
  {
    if tcs != [] {
      var a' := MergeChunk(a, tcs[0]);
      MergeChunksArguments(a', tcs[1..], k);
      if tcs[0].index != k {
        assert ArgumentsOf(a', k) == ArgumentsOf(a, k);
      }
    }
  }

  /** Every fragment's index has an accumulator afterwards, and no other index gains one. */
  lemma {:induction false} MergeChunksKeys(a: Accumulators, tcs: seq<ToolCallChunk>)
    ensures MergeChunks(a, tcs).entries.Keys ==
      a.entries.Keys + set i | 0 <= i < |tcs| :: tcs[i].index
    ensures a.order <= MergeChunks(a, tcs).order
    decreases |tcs|
  {
    if tcs != [] {
      MergeChunksKeys(MergeChunk(a, tcs[0]), tcs[1..]);
      IndicesCons(tcs);
    }
  }

  /** The indices of a list of fragments: those of its first fragment and of the rest. */
  lemma IndicesCons(tcs: seq<ToolCallChunk>)
    requires tcs != []
    ensures (set i | 0 <= i < |tcs| :: tcs[i].index) ==
      {tcs[0].index} + set i | 0 <= i < |tcs[1..]| :: tcs[1..][i].index
  {
    var s := set i | 0 <= i < |tcs| :: tcs[i].index;
    var s' := set i | 0 <= i < |tcs[1..]| :: tcs[1..][i].index;
    forall x | x in s ensures x in {tcs[0].index} + s' {
      var i :| 0 <= i < |tcs| && tcs[i].index == x;
      if i > 0 { assert tcs[1..][i - 1].index == x; }
    }
  }

  lemma {:induction false} MergeChunksAppend(a: Accumulators, xs: seq<ToolCallChunk>, ys: seq<ToolCallChunk>)
    ensures MergeChunks(a, xs + ys) == MergeChunks(MergeChunks(a, xs), ys)
    decreases |xs|
  {
    if xs == [] {
      assert xs + ys == ys;
    } else {
      assert (xs + ys)[0] == xs[0] && (xs + ys)[1..] == xs[1..] + ys;
      MergeChunksAppend(MergeChunk(a, xs[0]), xs[1..], ys);
    }
  }

  /** Fragments that carry no id for index `k` leave its id alone. */
  lemma {:induction false} MergeChunksKeepsId(a: Accumulators, tcs: seq<ToolCallChunk>, k: int)
    requires forall m :: 0 <= m < |tcs| && tcs[m].index == k ==> tcs[m].id == ""
    ensures IdOf(MergeChunks(a, tcs), k) == IdOf(a, k)
    decreases |tcs|
  {
    if tcs != [] {
      MergeChunksKeepsId(MergeChunk(a, tcs[0]), tcs[1..], k);
      if tcs[0].index != k {
        assert IdOf(MergeChunk(a, tcs[0]), k) == IdOf(a, k);
      }
    }
  }

  /** Fragments that carry no name for index `k` leave its name alone. */
  lemma {:induction false} MergeChunksKeepsName(a: Accumulators, tcs: seq<ToolCallChunk>, k: int)
    requires forall m :: 0 <= m < |tcs| && tcs[m].index == k ==> tcs[m].name == ""
    ensures NameOf(MergeChunks(a, tcs), k) == NameOf(a, k)
    decreases |tcs|
  {
    if tcs != [] {
      MergeChunksKeepsName(MergeChunk(a, tcs[0]), tcs[1..], k);
      if tcs[0].index != k {
        assert NameOf(MergeChunk(a, tcs[0]), k) == NameOf(a, k);
      }
    }
  }

  /** Last non-empty id wins: the id is that of the last fragment for `k` that carried one. */
  lemma LastIdWins(a: Accumulators, tcs: seq<ToolCallChunk>, k: int, j: nat)
    requires j < |tcs| && tcs[j].index == k && tcs[j].id != ""
    requires forall m :: j < m < |tcs| && tcs[m].index == k ==> tcs[m].id == ""
    ensures IdOf(MergeChunks(a, tcs), k) == tcs[j].id
  {
    assert tcs == tcs[..j] + [tcs[j]] + tcs[j + 1..];
    MergeChunksAppend(a, tcs[..j] + [tcs[j]], tcs[j + 1..]);
    MergeChunksAppend(a, tcs[..j], [tcs[j]]);
    MergeChunksKeepsId(MergeChunks(a, tcs[..j] + [tcs[j]]), tcs[j + 1..], k);
  }

  /** Last non-empty name wins: the name is that of the last fragment for `k` that carried one. */
  lemma LastNameWins(a: Accumulators, tcs: seq<ToolCallChunk>, k: int, j: nat)
    requires j < |tcs| && tcs[j].index == k && tcs[j].name != ""
    requires forall m :: j < m < |tcs| && tcs[m].index == k ==> tcs[m].name == ""
    ensures NameOf(MergeChunks(a, tcs), k) == tcs[j].name
  {
    assert tcs == tcs[..j] + [tcs[j]] + tcs[j + 1..];
    MergeChunksAppend(a, tcs[..j] + [tcs[j]], tcs[j + 1..]);
    MergeChunksAppend(a, tcs[..j], [tcs[j]]);
    MergeChunksKeepsName(MergeChunks(a, tcs[..j] + [tcs[j]]), tcs[j + 1..], k);
  }

  /** Every key in `order` has an entry. */
  predicate Covers(order: seq<int>, entries: map<int, Accumulator>)
  {
    forall i :: 0 <= i < |order| ==> order[i] in entries
  }

  /** `acc.arguments || '{}'`. */
  function ArgumentsText(acc: Accumulator): string
  {
    if acc.arguments == "" then "{}" else acc.arguments
  }

  predicate Parses(parseJson: string -> Option<Json>, acc: Accumulator)
  {
    parseJson(ArgumentsText(acc)).Some?
  }

  /**
   * `finalizeParsedToolCalls` without its side effect: one call per
   * accumulator whose arguments parse, in insertion order.
   */
  function FinalizeCalls(parseJson: string -> Option<Json>, order: seq<int>, entries: map<int, Accumulator>): (r: seq<ParsedToolCall>)
    ensures |r| <= |order|
  {
    if order == [] then []
    else
      var rest := FinalizeCalls(parseJson, AllButLast(order), entries);
      if Last(order) !in entries then rest else
      var acc := entries[Last(order)];
      match parseJson(ArgumentsText(acc))
      case Some(v) => rest + [ParsedToolCall(acc.id, acc.name, v)]
      case None => rest
  }

  /** The call finalized from one accumulator whose arguments parse. */
  function CallOf(parseJson: string -> Option<Json>, acc: Accumulator): ParsedToolCall
    requires Parses(parseJson, acc)
  {
    ParsedToolCall(acc.id, acc.name, parseJson(ArgumentsText(acc)).value)
  }

  /** When every accumulator's arguments parse, each one yields its call, at its own position. */
  lemma {:induction false} FinalizeAllParse(parseJson: string -> Option<Json>, order: seq<int>, entries: map<int, Accumulator>)
    requires Covers(order, entries)
    requires forall i :: 0 <= i < |order| ==> Parses(parseJson, entries[order[i]])
    ensures var r := FinalizeCalls(parseJson, order, entries);
      |r| == |order| &&
      forall i :: 0 <= i < |order| ==> r[i] == CallOf(parseJson, entries[order[i]])
  {
    if order != [] {
      var init := AllButLast(order);
      assert Covers(init, entries) by {
        forall i | 0 <= i < |init| ensures init[i] in entries { assert init[i] == order[i]; }
      }
      assert forall i :: 0 <= i < |init| ==> Parses(parseJson, entries[init[i]]) by {
        forall i | 0 <= i < |init| ensures Parses(parseJson, entries[init[i]]) { assert init[i] == order[i]; }
      }
      FinalizeAllParse(parseJson, init, entries);
    }
  }

  /** When no accumulator's arguments parse, there are no calls. */
  lemma {:induction false} FinalizeNoneParse(parseJson: string -> Option<Json>, order: seq<int>, entries: map<int, Accumulator>)
    requires Covers(order, entries)
    requires forall i :: 0 <= i < |order| ==> !Parses(parseJson, entries[order[i]])
    ensures FinalizeCalls(parseJson, order, entries) == []
  {
    if order != [] {
      var init := AllButLast(order);
      assert Covers(init, entries) by {
        forall i | 0 <= i < |init| ensures init[i] in entries { assert init[i] == order[i]; }
      }
      assert forall i :: 0 <= i < |init| ==> !Parses(parseJson, entries[init[i]]) by {
        forall i | 0 <= i < |init| ensures !Parses(parseJson, entries[init[i]]) { assert init[i] == order[i]; }
      }
      FinalizeNoneParse(parseJson, init, entries);
    }
  }

  /** An accumulator whose arguments do not parse is dropped, and the others are finalized as if it were not there. */
  lemma {:induction false} FinalizeDropsUnparsable(parseJson: string -> Option<Json>, order: seq<int>, entries: map<int, Accumulator>, j: nat)
    requires j < |order| && order[j] in entries && !Parses(parseJson, entries[order[j]])
    ensures FinalizeCalls(parseJson, order, entries) ==
      FinalizeCalls(parseJson, order[..j] + order[j + 1..], entries)
  {
    var cut := order[..j] + order[j + 1..];
    var init := AllButLast(order);
    if j == |order| - 1 {
      assert cut == init;
    } else {
      FinalizeDropsUnparsable(parseJson, init, entries, j);
      assert AllButLast(cut) == init[..j] + init[j + 1..];
      assert Last(cut) == Last(order);
    }
  }

  /** `finalizeParsedToolCalls` followed by `onToolCalls?.(...)`: the map is emptied whether or not a callback was given. */
  function FinalizeInto(setup: Setup, st: LoopState): (r: LoopState)
    ensures r.accs == NoAccumulators
    ensures r.events == st.events +
      if setup.hasOnToolCalls then [ToolCalls(FinalizeCalls(setup.parseJson, st.accs.order, st.accs.entries))] else []
  {
    var calls := FinalizeCalls(setup.parseJson, st.accs.order, st.accs.entries);
    LoopState(NoAccumulators, st.events + if setup.hasOnToolCalls then [ToolCalls(calls)] else [])
  }

  /** What `data: [DONE]` and the end of the reader do: hand over pending calls, or else report the text done. */
  function Terminate(setup: Setup, st: LoopState): (r: LoopState)
    ensures r.accs == (if st.accs.order == [] then st.accs else NoAccumulators)
    ensures st.accs.order == [] ==> r.events == st.events + [DoneMessage]
    ensures st.accs.order != [] ==> r == FinalizeInto(setup, st)
  {
    if st.accs.order != [] then FinalizeInto(setup, st)
    else st.(events := st.events + [DoneMessage])
  }

  /** `onMessage(content, false)` for a delta that carries text; nothing for one that does not. */
  function TextEvent(d: Delta): seq<Event>
  {
    if d.content != "" then [Message(d.content, false)] else []
  }

  /**
   * A parsed frame: text delta, fragments, then the finish reason; a frame
   * without a delta is skipped whole.  The text of a delta is delivered
   * first, whatever else the frame carries.
   */
  function ApplyFrame(setup: Setup, st: LoopState, f: Frame): (r: LoopState)
    ensures st.events <= r.events && |r.events| <= |st.events| + 2
    ensures f.delta.None? ==> r == st
    ensures f.delta.Some? ==> st.events + TextEvent(f.delta.value) <= r.events
  {
    match f.delta
    case None => st
    case Some(d) =>
      var s1 := if d.content != "" then st.(events := st.events + [Message(d.content, false)]) else st;
      var s2 := s1.(accs := MergeChunks(s1.accs, d.toolCalls));
      if f.finishReason == Some("tool_calls") || f.finishReason == Some("function_call") then
        if s2.accs.order != [] then FinalizeInto(setup, s2) else s2
      else if f.finishReason == Some("stop") then
        s2.(events := s2.events + [DoneMessage])
      else
        s2
  }

  /** One complete line of the stream. */
  function ProcessLine(setup: Setup, st: LoopState, line: string): (r: LoopState)
    ensures st.events <= r.events && |r.events| <= |st.events| + 2
  {
    var t := Trim(line);
    if t == "" then st
    else if t == DoneLine then Terminate(setup, st)
    else if !StartsWith(t, DataPrefix) then st
    else
      var payload := t[|DataPrefix|..];
      match setup.parseFrame(payload)
      case None => st.(events := st.events + [Message(payload, false)])
      case Some(f) => ApplyFrame(setup, st, f)
  }

  /** What happens to the loop state for one complete line. */
  type LineHandler = (LoopState, string) -> LoopState

  /** Lines handled one after the other by `step`. */
  function Fold(step: LineHandler, st: LoopState, lines: seq<string>): LoopState
  {
    if lines == [] then st
    else step(Fold(step, st, AllButLast(lines)), Last(lines))
  }

  lemma {:induction false} FoldAppend(step: LineHandler, st: LoopState, xs: seq<string>, ys: seq<string>)
    ensures Fold(step, st, xs + ys) == Fold(step, Fold(step, st, xs), ys)
    decreases |ys|
  {
    if ys == [] {
      assert xs + ys == xs;
    } else {
      FoldAppend(step, st, xs, AllButLast(ys));
      assert AllButLast(xs + ys) == xs + AllButLast(ys);
      assert Last(xs + ys) == Last(ys);
    }
  }

  /** One chunk of decoded text: cut at line feeds, keep the last piece, hand the complete lines to `step`. */
  function FeedWith(step: LineHandler, s: StreamState, chunk: string): (r: StreamState)
    ensures '\n' !in r.buffer
  {
    var pieces := Split(s.buffer + chunk);
    SplitNoLineFeed(s.buffer + chunk);
    StreamState(Last(pieces), Fold(step, s.loop, AllButLast(pieces)))
  }

  /** The chunks read so far, fed in order. */
  function RunWith(step: LineHandler, s: StreamState, chunks: seq<string>): StreamState
  {
    if chunks == [] then s
    else FeedWith(step, RunWith(step, s, AllButLast(chunks)), Last(chunks))
  }

  /** The state reached when `text` arrives in one piece: its last piece buffered, the others handled. */
  function AfterWith(step: LineHandler, loop: LoopState, text: string): StreamState
  {
    var pieces := Split(text);
    StreamState(Last(pieces), Fold(step, loop, AllButLast(pieces)))
  }

  function Concat(chunks: seq<string>): string
  {
    if chunks == [] then "" else Concat(AllButLast(chunks)) + Last(chunks)
  }

  /** Feeding one more chunk after `text` is the same as receiving `text` and the chunk in one piece. */
  lemma FeedWithStep(step: LineHandler, loop: LoopState, text: string, c: string, all: string)
    requires all == text + c
    ensures FeedWith(step, AfterWith(step, loop, text), c) == AfterWith(step, loop, all)
  {
    var p := Split(text);
    var q := Split(Last(p) + c);
    SplitAppend(text, c);
    var whole := Split(text + c);
    assert whole == AllButLast(p) + q;
    assert Last(whole) == Last(q);
    assert AllButLast(whole) == AllButLast(p) + AllButLast(q);
    FoldAppend(step, loop, AllButLast(p), AllButLast(q));
  }

  lemma {:induction false} RunWithIsAfter(step: LineHandler, s: StreamState, chunks: seq<string>)
    requires '\n' !in s.buffer
    ensures RunWith(step, s, chunks) == AfterWith(step, s.loop, s.buffer + Concat(chunks))
  {
    if chunks == [] {
      assert s.buffer + Concat(chunks) == s.buffer;
      SplitNoBreak(s.buffer);
    } else {
      var cs, c := AllButLast(chunks), Last(chunks);
      RunWithIsAfter(step, s, cs);
      RunWithLast(step, s, chunks);
      assert s.buffer + Concat(chunks) == s.buffer + Concat(cs) + c;
      FeedWithStep(step, s.loop, s.buffer + Concat(cs), c, s.buffer + Concat(chunks));
    }
  }


  /** Chunks that complete no line are only buffered: no line is handled. */
  lemma NoLineCompleted(step: LineHandler, s: StreamState, chunks: seq<string>)
    ensures '\n' !in s.buffer + Concat(chunks) ==> RunWith(step, s, chunks) == StreamState(s.buffer + Concat(chunks), s.loop)
  {
    var text := s.buffer + Concat(chunks);
    if '\n' !in text {
      assert '\n' !in s.buffer by { assert s.buffer == text[..|s.buffer|]; }
      RunWithIsAfter(step, s, chunks);
      SplitNoBreak(text);
    }
  }

  /** The last chunk is fed after all the others. */
  lemma RunWithLast(step: LineHandler, s: StreamState, chunks: seq<string>)
    requires chunks != []
    ensures RunWith(step, s, chunks) == FeedWith(step, RunWith(step, s, AllButLast(chunks)), Last(chunks))
  {
  }

  function LineStep(setup: Setup): LineHandler
  {
    (st, line) => ProcessLine(setup, st, line)
  }

  /** Complete lines handled in order. */
  function ProcessLines(setup: Setup, st: LoopState, lines: seq<string>): LoopState
  {
    Fold(LineStep(setup), st, lines)
  }

  /** Handling two runs of lines one after the other is handling their concatenation. */
  lemma ProcessLinesAppend(setup: Setup, st: LoopState, xs: seq<string>, ys: seq<string>)
    ensures ProcessLines(setup, st, xs + ys) == ProcessLines(setup, ProcessLines(setup, st, xs), ys)
  {
    FoldAppend(LineStep(setup), st, xs, ys);
  }

  /** The last of several lines is handled after all the others. */
  lemma ProcessLinesLast(setup: Setup, st: LoopState, lines: seq<string>)
    requires lines != []
    ensures ProcessLines(setup, st, lines) == ProcessLine(setup, ProcessLines(setup, st, AllButLast(lines)), Last(lines))
  {
  }

  /** The last line is handled after all the others. */
  lemma ProcessLinesSnoc(setup: Setup, st: LoopState, lines: seq<string>, line: string)
    ensures ProcessLines(setup, st, lines + [line]) == ProcessLine(setup, ProcessLines(setup, st, lines), line)
  {
    assert AllButLast(lines + [line]) == lines;
  }

  /** `buffer += chunk`, `split('\n')`, `buffer = lines.pop()`, then the loop over the complete lines. */
  function FeedChunk(setup: Setup, s: StreamState, chunk: string): (r: StreamState)
    ensures '\n' !in r.buffer
    ensures '\n' !in s.buffer + chunk ==> r == StreamState(s.buffer + chunk, s.loop)
  {
    SplitWhole(s.buffer + chunk);
    FeedWith(LineStep(setup), s, chunk)
  }

  /** One chunk: its last piece is buffered and the complete lines before it are handled in order. */
  lemma FeedChunkLines(setup: Setup, s: StreamState, chunk: string)
    ensures var pieces := Split(s.buffer + chunk);
      FeedChunk(setup, s, chunk) == StreamState(Last(pieces), ProcessLines(setup, s.loop, AllButLast(pieces)))
  {
  }

  /** The chunks read so far, fed in order. */
  function RunChunks(setup: Setup, s: StreamState, chunks: seq<string>): (r: StreamState)
    ensures chunks != [] ==> '\n' !in r.buffer
    ensures '\n' !in s.buffer + Concat(chunks) ==> r == StreamState(s.buffer + Concat(chunks), s.loop)
  {
    NoLineCompleted(LineStep(setup), s, chunks);
    RunWith(LineStep(setup), s, chunks)
  }

  /**
   * Chunk boundaries do not matter: after any sequence of chunks the buffer
   * is the text after the last line feed of everything received, and the
   * lines handled are exactly the complete lines of that text, in order.
   */
  lemma ChunkBoundariesIrrelevant(setup: Setup, s: StreamState, chunks: seq<string>)
    requires '\n' !in s.buffer
    ensures var pieces := Split(s.buffer + Concat(chunks));
      RunChunks(setup, s, chunks) == StreamState(Last(pieces), ProcessLines(setup, s.loop, AllButLast(pieces)))
  {
    RunWithIsAfter(LineStep(setup), s, chunks);
  }

  /**
   * Line framing: the lines handled so far, each followed by its line feed,
   * then the buffer, spell out exactly the text received.
   */
  lemma LineFraming(setup: Setup, chunks: seq<string>)
    ensures var pieces := Split(Concat(chunks));
      var s := RunChunks(setup, Initial, chunks);
      && s.buffer == Last(pieces)
      && s.loop == ProcessLines(setup, Initial.loop, AllButLast(pieces))
      && FlattenLines(AllButLast(pieces)) + s.buffer == Concat(chunks)
  {
    ChunkBoundariesIrrelevant(setup, Initial, chunks);
    assert Initial.buffer + Concat(chunks) == Concat(chunks);
    SplitFraming(Concat(chunks));
  }

  lemma {:induction false} MergeChunksWellFormed(a: Accumulators, tcs: seq<ToolCallChunk>)
    requires WellFormed(a)
    ensures WellFormed(MergeChunks(a, tcs))
    decreases |tcs|
  {
    if tcs != [] {
      MergeChunksWellFormed(MergeChunk(a, tcs[0]), tcs[1..]);
    }
  }

  /** A frame leaves the accumulators alone, merges its fragments into them, or empties them. */
  lemma ApplyFrameAccumulators(setup: Setup, st: LoopState, f: Frame)
    ensures var r := ApplyFrame(setup, st, f).accs;
      r == st.accs || r == NoAccumulators || (f.delta.Some? && r == MergeChunks(st.accs, f.delta.value.toolCalls))
  {
  }

  lemma ApplyFrameWellFormed(setup: Setup, st: LoopState, f: Frame)
    requires WellFormed(st.accs)
    ensures WellFormed(ApplyFrame(setup, st, f).accs)
  {
    ApplyFrameAccumulators(setup, st, f);
    assert WellFormed(NoAccumulators);
    if f.delta.Some? {
      MergeChunksWellFormed(st.accs, f.delta.value.toolCalls);
    }
  }

  /** Handling a line keeps one accumulator per index, listed once in insertion order. */
  lemma ProcessLineWellFormed(setup: Setup, st: LoopState, line: string)
    requires WellFormed(st.accs)
    ensures WellFormed(ProcessLine(setup, st, line).accs)
  {
    assert WellFormed(NoAccumulators);
    var t := Trim(line);
    if t != "" && t != DoneLine && StartsWith(t, DataPrefix) {
      var f := setup.parseFrame(t[|DataPrefix|..]);
      if f.Some? {
        ApplyFrameWellFormed(setup, st, f.value);
      }
    }
  }

  /** Handling a line never reports an error. */
  lemma ProcessLineNoFailure(setup: Setup, st: LoopState, line: string)
    requires forall i :: 0 <= i < |st.events| ==> !st.events[i].Failure?
    ensures var r := ProcessLine(setup, st, line).events;
      forall i :: 0 <= i < |r| ==> !r[i].Failure?
  {
    var t := Trim(line);
    if t == DoneLine {
      TerminateNoFailure(setup, st);
    } else if t != "" && StartsWith(t, DataPrefix) {
      var payload := t[|DataPrefix|..];
      match setup.parseFrame(payload)
      case Some(f) => ApplyFrameNoFailure(setup, st, f);
      case None =>
    }
  }

  lemma TerminateNoFailure(setup: Setup, st: LoopState)
    requires forall i :: 0 <= i < |st.events| ==> !st.events[i].Failure?
    ensures var r := Terminate(setup, st).events;
      forall i :: 0 <= i < |r| ==> !r[i].Failure?
  {
  }

  lemma ApplyFrameNoFailure(setup: Setup, st: LoopState, f: Frame)
    requires forall i :: 0 <= i < |st.events| ==> !st.events[i].Failure?
    ensures var r := ApplyFrame(setup, st, f).events;
      forall i :: 0 <= i < |r| ==> !r[i].Failure?
  {
  }

  lemma {:induction false} ProcessLinesWellFormed(setup: Setup, st: LoopState, lines: seq<string>)
    requires WellFormed(st.accs)
    ensures WellFormed(ProcessLines(setup, st, lines).accs)
  {
    if lines != [] {
      var init := AllButLast(lines);
      ProcessLinesWellFormed(setup, st, init);
      ProcessLinesLast(setup, st, lines);
      ProcessLineWellFormed(setup, ProcessLines(setup, st, init), Last(lines));
    }
  }

  /** Callbacks are never taken back: handling more lines only appends events. */
  lemma {:induction false} ProcessLinesOnlyAppends(setup: Setup, st: LoopState, lines: seq<string>)
    ensures st.events <= ProcessLines(setup, st, lines).events
  {
    if lines != [] {
      var init := AllButLast(lines);
      ProcessLinesOnlyAppends(setup, st, init);
      ProcessLinesLast(setup, st, lines);
      var mid := ProcessLines(setup, st, init);
      var last := ProcessLine(setup, mid, Last(lines));
      PrefixTransitive(st.events, mid.events, last.events);
    }
  }

  lemma PrefixTransitive<T>(a: seq<T>, b: seq<T>, c: seq<T>)
    requires a <= b && b <= c
    ensures a <= c
  {
    assert c[..|a|] == b[..|a|];
  }

  lemma {:induction false} RunChunksWellFormed(setup: Setup, s: StreamState, chunks: seq<string>)
    requires WellFormed(s.loop.accs)
    ensures WellFormed(RunChunks(setup, s, chunks).loop.accs)
  {
    if chunks != [] {
      RunChunksWellFormed(setup, s, AllButLast(chunks));
      var prev := RunChunks(setup, s, AllButLast(chunks));
      ProcessLinesWellFormed(setup, prev.loop, AllButLast(Split(prev.buffer + Last(chunks))));
      assert RunChunks(setup, s, chunks) == FeedChunk(setup, prev, Last(chunks));
    }
  }

  // ---------------------------------------------------------------------
  // What single lines do

  /** `data: [DONE]` is the only `data: ` line whose payload is `[DONE]`. */
  lemma PrefixedLine(p: string)
    ensures StartsWith(DataPrefix + p, DataPrefix)
    ensures (DataPrefix + p)[|DataPrefix|..] == p
    ensures DataPrefix + p == DoneLine <==> p == "[DONE]"
  {
  }

  /** A `data: ` line with the given payload survives trimming whole. */
  lemma DataLine(p: string)
    requires p != [] && !IsSpace(p[|p| - 1])
    ensures Trim(DataPrefix + p) == DataPrefix + p
    ensures StartsWith(DataPrefix + p, DataPrefix)
    ensures (DataPrefix + p)[|DataPrefix|..] == p
    ensures p != "[DONE]" ==> DataPrefix + p != DoneLine
  {
    var line := DataPrefix + p;
    assert line[0] == 'd' && line[|line| - 1] == p[|p| - 1];
    TrimKeeps(line);
    PrefixedLine(p);
  }

  /** Blank lines and lines that are neither `data: [DONE]` nor start with `data: ` change nothing. */
  lemma IgnoredLine(setup: Setup, st: LoopState, line: string)
    requires Trim(line) == "" || (Trim(line) != DoneLine && !StartsWith(Trim(line), DataPrefix))
    ensures ProcessLine(setup, st, line) == st
  {
  }

  /** A payload that does not parse is passed on verbatim as text, and nothing else changes. */
  lemma UnparsablePayloadEchoed(setup: Setup, st: LoopState, p: string)
    requires p != [] && !IsSpace(p[|p| - 1]) && p != "[DONE]"
    requires setup.parseFrame(p).None?
    ensures ProcessLine(setup, st, DataPrefix + p) == st.(events := st.events + [Message(p, false)])
  {
    DataLine(p);
  }

  /** A frame without a delta is skipped whole, its finish reason included. */
  lemma FrameWithoutDeltaSkipped(setup: Setup, st: LoopState, p: string)
    requires p != [] && !IsSpace(p[|p| - 1]) && p != "[DONE]"
    requires setup.parseFrame(p).Some? && setup.parseFrame(p).value.delta.None?
    ensures ProcessLine(setup, st, DataPrefix + p) == st
  {
    DataLine(p);
  }

  /** `finish_reason: "stop"` merges the fragments, keeps them pending and reports the text done after its own text. */
  lemma StopFrameReportsDone(setup: Setup, st: LoopState, d: Delta)
    ensures ApplyFrame(setup, st, Frame(Some(d), Some("stop"))) ==
      LoopState(MergeChunks(st.accs, d.toolCalls), st.events + TextEvent(d) + [DoneMessage])
  {
  }

  /** `function_call` is handled exactly as `tool_calls`. */
  lemma FunctionCallActsAsToolCalls(setup: Setup, st: LoopState, d: Delta)
    ensures ApplyFrame(setup, st, Frame(Some(d), Some("function_call"))) ==
      ApplyFrame(setup, st, Frame(Some(d), Some("tool_calls")))
  {
  }

  /** A `tool_calls` finish with nothing merged delivers only the frame's text: no batch and no end of text. */
  lemma ToolCallsNothingMerged(setup: Setup, st: LoopState, d: Delta, reason: string)
    requires reason == "tool_calls" || reason == "function_call"
    requires MergeChunks(st.accs, d.toolCalls).order == []
    ensures ApplyFrame(setup, st, Frame(Some(d), Some(reason))) ==
      LoopState(MergeChunks(st.accs, d.toolCalls), st.events + TextEvent(d))
  {
  }

  /** A `tool_calls` finish with fragments merged delivers the frame's text, then hands the batch over and empties the map. */
  lemma ToolCallsMergedHandsOver(setup: Setup, st: LoopState, d: Delta, reason: string)
    requires reason == "tool_calls" || reason == "function_call"
    requires MergeChunks(st.accs, d.toolCalls).order != []
    ensures var merged := MergeChunks(st.accs, d.toolCalls);
      var r := ApplyFrame(setup, st, Frame(Some(d), Some(reason)));
      && r == FinalizeInto(setup, LoopState(merged, st.events + TextEvent(d)))
      && r.accs == NoAccumulators
      && r.events == st.events + TextEvent(d) +
        (if setup.hasOnToolCalls then [ToolCalls(FinalizeCalls(setup.parseJson, merged.order, merged.entries))] else [])
  {
  }

  /** Any other finish reason, or none, only delivers the text and merges the fragments. */
  lemma OtherFinishOnlyMerges(setup: Setup, st: LoopState, d: Delta, reason: Option<string>)
    requires reason != Some("tool_calls") && reason != Some("function_call") && reason != Some("stop")
    ensures ApplyFrame(setup, st, Frame(Some(d), reason)) ==
      LoopState(MergeChunks(st.accs, d.toolCalls), st.events + TextEvent(d))
  {
  }

  /**
   * `finish_reason: "stop"` does not hand pending fragments over: the
   * `data: [DONE]` after it does, after the end of the text was reported.
   */
  lemma StopLeavesFragmentsPending(setup: Setup, st: LoopState, d: Delta)
    requires MergeChunks(st.accs, d.toolCalls).order != []
    ensures var after := ApplyFrame(setup, st, Frame(Some(d), Some("stop")));
      && after.accs == MergeChunks(st.accs, d.toolCalls)
      && Terminate(setup, after) ==
        FinalizeInto(setup, LoopState(MergeChunks(st.accs, d.toolCalls), st.events + TextEvent(d) + [DoneMessage]))
  {
    StopFrameReportsDone(setup, st, d);
  }

  /** `data: [DONE]`, even padded with white space, ends the stream. */
  lemma DoneLineTerminates(setup: Setup, st: LoopState, line: string)
    requires Trim(line) == DoneLine
    ensures ProcessLine(setup, st, line) == Terminate(setup, st)
  {
  }

  /** A payload whose frame has a delta and a finish reason that ends nothing. */
  predicate OpenFrame(setup: Setup, p: string)
  {
    && p != [] && !IsSpace(p[|p| - 1]) && p != "[DONE]"
    && setup.parseFrame(p).Some?
    && var f := setup.parseFrame(p).value;
    && f.delta.Some?
    && f.finishReason != Some("tool_calls") && f.finishReason != Some("function_call") && f.finishReason != Some("stop")
  }

  function DataLines(ps: seq<string>): (r: seq<string>)
    ensures |r| == |ps|
    ensures forall i :: 0 <= i < |ps| ==> r[i] == DataPrefix + ps[i]
  {
    if ps == [] then [] else DataLines(AllButLast(ps)) + [DataPrefix + Last(ps)]
  }

  /** The delta of an open frame. */
  function DeltaOf(setup: Setup, p: string): Delta
    requires OpenFrame(setup, p)
  {
    setup.parseFrame(p).value.delta.value
  }

  /** The text events of the payloads, in order. */
  function TextsOf(setup: Setup, ps: seq<string>): seq<Event>
    requires forall i :: 0 <= i < |ps| ==> OpenFrame(setup, ps[i])
  {
    if ps == [] then []
    else
      assert OpenFrame(setup, ps[|ps| - 1]);
      TextsOf(setup, AllButLast(ps)) + TextEvent(DeltaOf(setup, Last(ps)))
  }

  /** The tool-call fragments of the payloads, in order. */
  function FragmentsOf(setup: Setup, ps: seq<string>): seq<ToolCallChunk>
    requires forall i :: 0 <= i < |ps| ==> OpenFrame(setup, ps[i])
  {
    if ps == [] then []
    else
      assert OpenFrame(setup, ps[|ps| - 1]);
      FragmentsOf(setup, AllButLast(ps)) + DeltaOf(setup, Last(ps)).toolCalls
  }

  lemma OpenLine(setup: Setup, st: LoopState, p: string)
    requires OpenFrame(setup, p)
    ensures ProcessLine(setup, st, DataPrefix + p) ==
      LoopState(MergeChunks(st.accs, DeltaOf(setup, p).toolCalls), st.events + TextEvent(DeltaOf(setup, p)))
  {
    DataLine(p);
    var f := setup.parseFrame(p).value;
    assert ProcessLine(setup, st, DataPrefix + p) == ApplyFrame(setup, st, f);
    OtherFinishOnlyMerges(setup, st, f.delta.value, f.finishReason);
  }

  lemma AppendAssoc<T>(a: seq<T>, b: seq<T>, c: seq<T>)
    ensures a + (b + c) == (a + b) + c
  {
  }

  /**
   * Frames that end nothing, whatever text and fragments they carry: each
   * text reaches `onMessage` in arrival order, and the fragments are merged
   * as one run in arrival order.
   */
  lemma {:induction false} ContentInOrder(setup: Setup, st: LoopState, ps: seq<string>)
    requires forall i :: 0 <= i < |ps| ==> OpenFrame(setup, ps[i])
    ensures ProcessLines(setup, st, DataLines(ps)) ==
      LoopState(MergeChunks(st.accs, FragmentsOf(setup, ps)), st.events + TextsOf(setup, ps))
  {
    if ps != [] {
      var init, p := AllButLast(ps), Last(ps);
      ContentInOrder(setup, st, init);
      ProcessLinesSnoc(setup, st, DataLines(init), DataPrefix + p);
      assert DataLines(ps) == DataLines(init) + [DataPrefix + p];
      var mid := ProcessLines(setup, st, DataLines(init));
      assert OpenFrame(setup, ps[|ps| - 1]);
      OpenLine(setup, mid, p);
      var d := DeltaOf(setup, p);
      assert TextsOf(setup, ps) == TextsOf(setup, init) + TextEvent(d);
      assert FragmentsOf(setup, ps) == FragmentsOf(setup, init) + d.toolCalls;
      AppendAssoc(st.events, TextsOf(setup, init), TextEvent(d));
      MergeChunksAppend(st.accs, FragmentsOf(setup, init), d.toolCalls);
    }
  }

  /** A payload whose frame has delta `d` and finish reason `stop`. */
  predicate StopFrame(setup: Setup, p: string, d: Delta)
  {
    && p != [] && !IsSpace(p[|p| - 1]) && p != "[DONE]"
    && setup.parseFrame(p) == Some(Frame(Some(d), Some("stop")))
  }

  /**
   * `finish_reason: "stop"` followed by `data: [DONE]`, with no fragments
   * pending after the stop frame, reports the end of the text twice: both
   * lines call `onMessage('', true)`.
   */
  lemma StopThenDoneReportsTwice(setup: Setup, st: LoopState, p: string, d: Delta)
    requires StopFrame(setup, p, d) && MergeChunks(st.accs, d.toolCalls).order == []
    ensures ProcessLines(setup, st, [DataPrefix + p, DoneLine]).events ==
      st.events + TextEvent(d) + [DoneMessage, DoneMessage]
  {
    DataLine(p);
    var mid := ProcessLine(setup, st, DataPrefix + p);
    assert mid == ApplyFrame(setup, st, Frame(Some(d), Some("stop")));
    StopFrameReportsDone(setup, st, d);
    DoneWithNothingPending(setup, mid);
    ProcessTwoLines(setup, st, DataPrefix + p, DoneLine);
  }

  /** With no fragments pending, `data: [DONE]` reports the end of the text. */
  lemma DoneWithNothingPending(setup: Setup, st: LoopState)
    requires st.accs.order == []
    ensures ProcessLine(setup, st, DoneLine).events == st.events + [DoneMessage]
  {
    TrimKeeps(DoneLine);
    DoneLineTerminates(setup, st, DoneLine);
  }

  /** A payload whose frame has only tool-call fragments and finish reason `tool_calls`. */
  predicate ToolCallsFrame(setup: Setup, p: string, tcs: seq<ToolCallChunk>)
  {
    && p != [] && !IsSpace(p[|p| - 1]) && p != "[DONE]"
    && setup.parseFrame(p) == Some(Frame(Some(Delta("", tcs)), Some("tool_calls")))
  }

  /** Merging at least one fragment into well-formed accumulators leaves some pending. */
  lemma MergedNotEmpty(a: Accumulators, tcs: seq<ToolCallChunk>)
    requires tcs != [] && WellFormed(a)
    ensures MergeChunks(a, tcs).order != []
  {
    MergeChunksKeys(a, tcs);
    assert tcs[0].index in MergeChunks(a, tcs).entries;
    MergeChunksWellFormed(a, tcs);
  }

  lemma ApplyToolCallsFrame(setup: Setup, st: LoopState, tcs: seq<ToolCallChunk>)
    requires MergeChunks(st.accs, tcs).order != []
    ensures ApplyFrame(setup, st, Frame(Some(Delta("", tcs)), Some("tool_calls"))) ==
      FinalizeInto(setup, st.(accs := MergeChunks(st.accs, tcs)))
  {
  }

  /** A `tool_calls` finish hands the merged fragments over at once and empties the accumulators. */
  lemma ToolCallsFrameHandsOver(setup: Setup, st: LoopState, p: string, tcs: seq<ToolCallChunk>)
    requires ToolCallsFrame(setup, p, tcs) && tcs != [] && WellFormed(st.accs)
    ensures ProcessLine(setup, st, DataPrefix + p) == FinalizeInto(setup, st.(accs := MergeChunks(st.accs, tcs)))
  {
    DataLine(p);
    MergedNotEmpty(st.accs, tcs);
    ApplyToolCallsFrame(setup, st, tcs);
    assert ProcessLine(setup, st, DataPrefix + p) == ApplyFrame(setup, st, setup.parseFrame(p).value);
  }

  /**
   * Fragments closed by `finish_reason: "tool_calls"` are handed over at
   * once; the accumulators are then empty, so the `data: [DONE]` that
   * follows also calls `onMessage('', true)`.
   */
  lemma ToolCallsThenDone(setup: Setup, st: LoopState, p: string, tcs: seq<ToolCallChunk>)
    requires ToolCallsFrame(setup, p, tcs) && tcs != [] && WellFormed(st.accs)
    ensures var merged := MergeChunks(st.accs, tcs);
      ProcessLines(setup, st, [DataPrefix + p, DoneLine]).events == st.events +
        (if setup.hasOnToolCalls then [ToolCalls(FinalizeCalls(setup.parseJson, merged.order, merged.entries))] else []) +
        [DoneMessage]
  {
    ToolCallsFrameHandsOver(setup, st, p, tcs);
    var mid := ProcessLine(setup, st, DataPrefix + p);
    DoneWithNothingPending(setup, mid);
    ProcessTwoLines(setup, st, DataPrefix + p, DoneLine);
  }

  /** Two lines are handled one after the other. */
  lemma ProcessTwoLines(setup: Setup, st: LoopState, first: string, second: string)
    ensures ProcessLines(setup, st, [first, second]) == ProcessLine(setup, ProcessLine(setup, st, first), second)
  {
    FoldTwo(LineStep(setup), st, first, second);
  }

  lemma FoldTwo(step: LineHandler, st: LoopState, first: string, second: string)
    ensures Fold(step, st, [first, second]) == step(step(st, first), second)
  {
    assert AllButLast([first, second]) == [first] && Last([first, second]) == second;
    assert AllButLast([first]) == [] && Last([first]) == first;
    assert Fold(step, st, [first]) == step(st, first);
  }

  /** Line handling never reports an error. */
  lemma ProcessLinesNoFailure(setup: Setup, st: LoopState, lines: seq<string>)
    requires NoFailure(st)
    ensures NoFailure(ProcessLines(setup, st, lines))
  {
    forall s: LoopState, line: string | NoFailure(s) ensures NoFailure(ProcessLine(setup, s, line)) {
      ProcessLineNoFailure(setup, s, line);
    }
    FoldPreserves(LineStep(setup), NoFailure, st, lines);
  }

  /** No error has been reported so far. */
  predicate NoFailure(st: LoopState)
  {
    forall i :: 0 <= i < |st.events| ==> !st.events[i].Failure?
  }

  /** A property every step keeps holds after any run of lines. */
  lemma {:induction false} FoldPreserves(step: LineHandler, inv: LoopState -> bool, st: LoopState, lines: seq<string>)
    requires inv(st)
    requires forall s: LoopState, line: string :: inv(s) ==> inv(step(s, line))
    ensures inv(Fold(step, st, lines))
  {
    if lines != [] {
      FoldPreserves(step, inv, st, AllButLast(lines));
    }
  }

  // ---------------------------------------------------------------------
  // The whole exchange

  /** An exception as the outer `catch` sees it. */
  datatype Thrown = Thrown(name: string, message: string)

  /** How reading the body stops: `done`, or a rejected `read()`. */
  datatype ReadEnd = EndOfStream | ReadThrew(error: Thrown)

  /**
   * The response: status, `statusText`, the body text read on failure
   * (`None` when reading it throws), whether `response.body` exists, the
   * decoded chunks and how reading stops.
   */
  datatype Response = Response(
    ok: bool,
    status: nat,
    statusText: string,
    errorText: Option<string>,
    hasBody: bool,
    chunks: seq<string>,
    end: ReadEnd)

  /** `fetch` rejects or resolves with a response. */
  datatype FetchOutcome = FetchThrew(error: Thrown) | Responded(response: Response)

  const RequestFailed: string := "请求失败"
  const UnknownError: string := "未知错误"
  const NoResponseBody: string := "No response body"

  /** What the `catch` around the error body falls back to. */
  function StatusFallback(statusText: string): (r: string)
    ensures r != ""
    ensures statusText != "" ==> r == statusText
  {
    if statusText != "" then statusText else RequestFailed
  }

  /** `parsed.error?.message || parsed.message || errorBody`, with the `catch` fallback. */
  function ErrorDetail(parseJson: string -> Option<Json>, statusText: string, errorText: Option<string>): (r: string)
    ensures errorText.None? ==> r == StatusFallback(statusText)
    ensures errorText.Some? && parseJson(errorText.value) in {None, Some(JNull)} ==> r == StatusFallback(statusText)
    ensures errorText.Some? && parseJson(errorText.value).Some? && parseJson(errorText.value).value.JObj? ==>
      var v := parseJson(errorText.value).value;
      var inner := Get(v, "error");
      var m := if inner.Some? then Get(inner.value, "message") else None;
      (Truthy(m) ==> r == Display(m.value)) &&
      (!Truthy(m) && Truthy(Get(v, "message")) ==> r == Display(v.fields["message"])) &&
      (!Truthy(m) && !Truthy(Get(v, "message")) ==> r == errorText.value)
    ensures (errorText.Some? && parseJson(errorText.value).Some? && !parseJson(errorText.value).value.JObj?
      && parseJson(errorText.value).value != JNull) ==> r == errorText.value
  {
    match errorText
    case None => StatusFallback(statusText)
    case Some(text) =>
      match parseJson(text)
      case None => StatusFallback(statusText)
      case Some(v) =>
        if v == JNull then StatusFallback(statusText)
        else
          var inner := Get(v, "error");
          var m := if inner.Some? then Get(inner.value, "message") else None;
          if Truthy(m) then Display(m.value)
          else
            var m2 := Get(v, "message");
            if Truthy(m2) then Display(m2.value) else text
  }

  /** The message of the error thrown for a response that is not `ok`. */
  function HttpMessage(status: nat, detail: string): (r: string)
    ensures StartsWith(r, "HTTP ") && |detail| < |r| && r[|r| - |detail|..] == detail
  {
    "HTTP " + NatToString(status) + ": " + detail
  }

  /** `error?.message || error?.toString?.() || '未知错误'` for an `Error`. */
  function ErrorText(e: Thrown): (r: string)
    ensures r != ""
    ensures e.message != "" ==> r == e.message
    ensures e.message == "" && e.name != "" ==> r == e.name
  {
    if e.message != "" then e.message
    else if e.name != "" then e.name
    else UnknownError
  }

  /** The outer `catch`: an abort is silent, anything else goes to `onError` when one was given. */
  function Report(setup: Setup, e: Thrown): (r: seq<Event>)
    ensures |r| <= 1
    ensures r != [] <==> e.name != "AbortError" && setup.hasOnError
    ensures r != [] ==> r == [Failure(ErrorText(e))]
  {
    if e.name == "AbortError" || !setup.hasOnError then [] else [Failure(ErrorText(e))]
  }

  /** Every callback one `fetchSSE` call makes, in order. */
  function ExchangeEvents(setup: Setup, outcome: FetchOutcome): (r: seq<Event>)
    ensures outcome.FetchThrew? || !outcome.response.ok || !outcome.response.hasBody ==>
      |r| <= 1 && forall i :: 0 <= i < |r| ==> r[i].Failure?
    ensures outcome.Responded? && outcome.response.ok && outcome.response.hasBody ==>
      RunChunks(setup, Initial, outcome.response.chunks).loop.events <= r
  {
    match outcome
    case FetchThrew(e) => Report(setup, e)
    case Responded(resp) =>
      if !resp.ok then
        Report(setup, Thrown("Error", HttpMessage(resp.status, ErrorDetail(setup.parseJson, resp.statusText, resp.errorText))))
      else if !resp.hasBody then
        Report(setup, Thrown("Error", NoResponseBody))
      else
        var s := RunChunks(setup, Initial, resp.chunks);
        match resp.end
        case EndOfStream => Terminate(setup, s.loop).events
        case ReadThrew(e) => s.loop.events + Report(setup, e)
  }

  /** A failed HTTP status produces exactly one report, naming the status and the detail. */
  lemma HttpErrorReported(setup: Setup, resp: Response)
    requires !resp.ok && setup.hasOnError
    ensures ExchangeEvents(setup, Responded(resp)) ==
      [Failure("HTTP " + NatToString(resp.status) + ": " + ErrorDetail(setup.parseJson, resp.statusText, resp.errorText))]
  {
    var m := HttpMessage(resp.status, ErrorDetail(setup.parseJson, resp.statusText, resp.errorText));
    assert m != "";
  }

  /** Aborting is never reported: before the response, nothing at all; while reading, only what the lines already produced. */
  lemma AbortIsSilent(setup: Setup, outcome: FetchOutcome, message: string)
    requires outcome.FetchThrew? ==> outcome.error == Thrown("AbortError", message)
    requires outcome.Responded? ==>
      (outcome.response.ok && outcome.response.hasBody &&
       outcome.response.end == ReadThrew(Thrown("AbortError", message)))
    ensures outcome.FetchThrew? ==> ExchangeEvents(setup, outcome) == []
    ensures outcome.Responded? ==>
      ExchangeEvents(setup, outcome) == RunChunks(setup, Initial, outcome.response.chunks).loop.events
  {
    if outcome.Responded? {
      assert Report(setup, Thrown("AbortError", message)) == [];
    }
  }

  /** `onError` is called at most once, and nothing follows it. */
  lemma FailureIsLast(setup: Setup, outcome: FetchOutcome)
    ensures var ev := ExchangeEvents(setup, outcome);
      forall i :: 0 <= i < |ev| - 1 ==> !ev[i].Failure?
  {
    if outcome.Responded? && outcome.response.ok && outcome.response.hasBody {
      var resp := outcome.response;
      ChunkBoundariesIrrelevant(setup, Initial, resp.chunks);
      var pieces := Split(Initial.buffer + Concat(resp.chunks));
      ProcessLinesNoFailure(setup, Initial.loop, AllButLast(pieces));
      var loop := RunChunks(setup, Initial, resp.chunks).loop;
      var ev := ExchangeEvents(setup, outcome);
      if resp.end == EndOfStream {
        assert forall i :: 0 <= i < |ev| ==> !ev[i].Failure?;
      }
    }
  }

  /**
   * A stream that ends normally ends with a terminal callback: `onMessage('', true)`
   * when no fragments are pending, the finalized calls otherwise.
   */
  lemma CompletedStreamEndsWithTerminal(setup: Setup, resp: Response)
    requires resp.ok && resp.hasBody && resp.end == EndOfStream
    ensures var ev := ExchangeEvents(setup, Responded(resp));
      var loop := RunChunks(setup, Initial, resp.chunks).loop;
      (loop.accs.order == [] ==> ev != [] && ev[|ev| - 1] == DoneMessage) &&
      (loop.accs.order != [] && setup.hasOnToolCalls ==>
        ev != [] && ev[|ev| - 1] == ToolCalls(FinalizeCalls(setup.parseJson, loop.accs.order, loop.accs.entries)))
  {
  }

  // ---------------------------------------------------------------------
  // The request body

  /** A tool definition as the JSON object sent in `tools`. */
  function ToolDefinitionJson(d: ToolDefinition): Json
  {
    JObj(map[
      "type" := JStr(d.kind),
      "function" := JObj(map[
        "name" := JStr(d.func.name),
        "description" := JStr(d.func.description),
        "parameters" := d.func.parameters])])
  }

  /** Reading a tool definition back from its JSON object. */
  function ToolDefinitionFromJson(j: Json): Option<ToolDefinition>
  {
    if j.JObj? && "type" in j.fields && j.fields["type"].JStr? && "function" in j.fields then
      var f := j.fields["function"];
      if f.JObj? && "name" in f.fields && f.fields["name"].JStr?
        && "description" in f.fields && f.fields["description"].JStr? && "parameters" in f.fields
      then Some(ToolDefinition(j.fields["type"].s,
        ToolFunction(f.fields["name"].s, f.fields["description"].s, f.fields["parameters"])))
      else None
    else None
  }

  /** The JSON form of a tool definition loses nothing. */
  lemma ToolDefinitionRoundTrip(d: ToolDefinition)
    ensures ToolDefinitionFromJson(ToolDefinitionJson(d)) == Some(d)
  {
    var j := ToolDefinitionJson(d);
    var f := j.fields["function"];
    assert j.fields["type"] == JStr(d.kind);
    assert f.fields["name"] == JStr(d.func.name);
    assert f.fields["description"] == JStr(d.func.description);
    assert f.fields["parameters"] == d.func.parameters;
  }

  /**
   * `{ ...body }` with `tools` and `tool_choice: 'auto'` added only when a
   * non-empty list of tools is given; every other key is copied unchanged.
   */
  function BuildRequestBody(body: map<string, Json>, tools: Option<seq<ToolDefinition>>): (r: map<string, Json>)
    ensures tools.None? || tools.value == [] ==> r == body
    ensures tools.Some? && tools.value != [] ==>
      && r.Keys == body.Keys + {"tools", "tool_choice"}
      && r["tool_choice"] == JStr("auto")
      && r["tools"].JArr? && |r["tools"].items| == |tools.value|
      && (forall i :: 0 <= i < |tools.value| ==> ToolDefinitionFromJson(r["tools"].items[i]) == Some(tools.value[i]))
    ensures forall k :: k in body && k != "tools" && k != "tool_choice" ==> k in r && r[k] == body[k]
  {
    match tools
    case Some(ts) =>
      if ts != [] then
        var encoded := seq(|ts|, i requires 0 <= i < |ts| => ToolDefinitionJson(ts[i]));
        assert forall i :: 0 <= i < |ts| ==> ToolDefinitionFromJson(encoded[i]) == Some(ts[i]) by {
          forall i | 0 <= i < |ts| ensures ToolDefinitionFromJson(encoded[i]) == Some(ts[i]) {
            ToolDefinitionRoundTrip(ts[i]);
          }
        }
        body["tools" := JArr(encoded)]["tool_choice" := JStr("auto")]
      else body
    case None => body
  }
}
