/** The Anthropic message stream: the two block lifecycles, the method that
    writes a whole response, the client-side automaton that reads the events
    back, and the proof that it rebuilds the non-streamed answer. */
module AnthropicStream {
  import opened Text
  import opened JsonValues
  import opened Models
  import opened Emission

  // ---------- events ----------

  datatype Block = ThinkingBlock | TextBlock | ToolUseBlock(id: string, name: string)

  datatype Delta = ThinkingDelta(thinking: string) | SignatureDelta(signature: string)
                 | TextDelta(text: string) | InputJsonDelta(partial: string)

  datatype Event =
    | MessageStart(id: string, model: string, inputTokens: int)
    | BlockStart(index: int, block: Block)
    | BlockDelta(index: int, delta: Delta)
    | BlockStop(index: int)
    | MessageDelta(stopReason: string, outputTokens: int)
    | MessageStop

  // ---------- the lifecycles ----------

  class ThinkingBlockLifecycle {
    const out: Emitter<Event>
    var nextIndex: int
    var thinkingOpen: bool
    var thinkingIndex: int
    var signatureEmitted: bool

    constructor (nextIndex: int, out: Emitter<Event>)
      ensures this.out == out && this.nextIndex == nextIndex && !thinkingOpen && !signatureEmitted
    {
      this.out := out;
      this.nextIndex, thinkingOpen, thinkingIndex, signatureEmitted := nextIndex, false, 0, false;
    }

    method EnsureThinkingBlock()
      modifies this, out
      ensures thinkingOpen
      ensures old(thinkingOpen) ==> out.trace == old(out.trace) && thinkingIndex == old(thinkingIndex)
                                    && nextIndex == old(nextIndex) && signatureEmitted == old(signatureEmitted)
      ensures !old(thinkingOpen) ==> out.trace == old(out.trace) + [BlockStart(old(nextIndex), ThinkingBlock)]
                                     && thinkingIndex == old(nextIndex) && nextIndex == old(nextIndex) + 1 && !signatureEmitted
    {
      if thinkingOpen {
        return;
      }
      thinkingIndex := nextIndex;
      nextIndex := nextIndex + 1;
      thinkingOpen := true;
      signatureEmitted := false;
      out.Emit(BlockStart(thinkingIndex, ThinkingBlock));
    }

    method EmitThinkingDelta(delta: string)
      modifies this, out
      ensures delta == "" ==> out.trace == old(out.trace) && thinkingOpen == old(thinkingOpen) && nextIndex == old(nextIndex)
                              && thinkingIndex == old(thinkingIndex) && signatureEmitted == old(signatureEmitted)
      ensures delta != "" ==>
                thinkingOpen
                && thinkingIndex == (if old(thinkingOpen) then old(thinkingIndex) else old(nextIndex))
                && nextIndex == (if old(thinkingOpen) then old(nextIndex) else old(nextIndex) + 1)
                && signatureEmitted == (old(thinkingOpen) && old(signatureEmitted))
                && out.trace == old(out.trace)
                                + (if old(thinkingOpen) then [] else [BlockStart(old(nextIndex), ThinkingBlock)])
                                + [BlockDelta(thinkingIndex, ThinkingDelta(delta))]
    {
      if delta == "" {
        return;
      }
      EnsureThinkingBlock();
      out.Emit(BlockDelta(thinkingIndex, ThinkingDelta(delta)));
    }

    method EmitSignature(signature: string)
      modifies this, out
      ensures thinkingOpen == old(thinkingOpen) && nextIndex == old(nextIndex) && thinkingIndex == old(thinkingIndex)
      ensures var emits := signature != "" && old(thinkingOpen) && !old(signatureEmitted);
              signatureEmitted == (old(signatureEmitted) || emits) &&
              out.trace == old(out.trace) + (if emits then [BlockDelta(thinkingIndex, SignatureDelta(signature))] else [])
    {
      if signature == "" || !thinkingOpen || signatureEmitted {
        return;
      }
      out.Emit(BlockDelta(thinkingIndex, SignatureDelta(signature)));
      signatureEmitted := true;
    }

    /** Close the block, if open, and return the index of the next one. */
    method PrepareForNextBlock(signature: string) returns (index: int)
      modifies this, out
      ensures index == nextIndex == old(nextIndex) && !thinkingOpen
      ensures out.trace == old(out.trace)
                           + (if old(thinkingOpen) && signature != "" && !old(signatureEmitted)
                              then [BlockDelta(old(thinkingIndex), SignatureDelta(signature))] else [])
                           + (if old(thinkingOpen) then [BlockStop(old(thinkingIndex))] else [])
    {
      if thinkingOpen {
        EmitSignature(signature);
        out.Emit(BlockStop(thinkingIndex));
        thinkingOpen := false;
      }
      return nextIndex;
    }
  }

  function Max(a: int, b: int): int { if a > b then a else b }

  class MessageStreamState {
    const out: Emitter<Event>
    const messageID: string
    const model: string
    var messageStarted: bool
    var textOpen: bool
    var textIndex: int
    var nextIndex: int
    var completed: bool

    constructor (messageID: string, model: string, out: Emitter<Event>)
      ensures !messageStarted && !textOpen && nextIndex == 0 && !completed
      ensures this.out == out && this.messageID == messageID && this.model == model
    {
      this.out, this.messageID, this.model := out, messageID, model;
      messageStarted, textOpen, textIndex, nextIndex, completed := false, false, 0, 0, false;
    }

    method StartMessage(inputTokens: int)
      modifies this`messageStarted, this`nextIndex, out
      ensures messageStarted
      ensures old(messageStarted) ==> out.trace == old(out.trace) && nextIndex == old(nextIndex)
      ensures !old(messageStarted) ==> out.trace == old(out.trace) + [MessageStart(messageID, model, inputTokens)]
                                       && nextIndex == Max(old(nextIndex), 0)
    {
      if messageStarted {
        return;
      }
      out.Emit(MessageStart(messageID, model, inputTokens));
      messageStarted := true;
      if nextIndex < 0 {
        nextIndex := 0;
      }
    }

    method EnsureTextBlock() returns (index: int)
      modifies this`textOpen, this`textIndex, this`nextIndex, out
      ensures textOpen && index == textIndex
      ensures old(textOpen) ==> out.trace == old(out.trace) && textIndex == old(textIndex) && nextIndex == old(nextIndex)
      ensures !old(textOpen) ==> out.trace == old(out.trace) + [BlockStart(old(nextIndex), TextBlock)]
                                 && textIndex == old(nextIndex) && nextIndex == old(nextIndex) + 1
    {
      if textOpen {
        return textIndex;
      }
      textIndex := nextIndex;
      nextIndex := nextIndex + 1;
      textOpen := true;
      out.Emit(BlockStart(textIndex, TextBlock));
      return textIndex;
    }

    method EmitTextDelta(delta: string)
      modifies this`textOpen, this`textIndex, this`nextIndex, out
      ensures delta == "" ==> out.trace == old(out.trace) && textOpen == old(textOpen) && textIndex == old(textIndex) && nextIndex == old(nextIndex)
      ensures delta != "" ==>
                textOpen && textIndex == (if old(textOpen) then old(textIndex) else old(nextIndex))
                && nextIndex == Max(old(nextIndex), textIndex + 1)
                && out.trace == old(out.trace)
                                + (if old(textOpen) then [] else [BlockStart(old(nextIndex), TextBlock)])
                                + [BlockDelta(textIndex, TextDelta(delta))]
    {
      if delta == "" {
        return;
      }
      var index := EnsureTextBlock();
      out.Emit(BlockDelta(index, TextDelta(delta)));
      if nextIndex <= index {
        nextIndex := index + 1;
      }
    }

    method CloseTextBlock()
      modifies this`textOpen, out
      ensures !textOpen
      ensures out.trace == old(out.trace) + if old(textOpen) then [BlockStop(old(textIndex))] else []
    {
      if !textOpen {
        return;
      }
      out.Emit(BlockStop(textIndex));
      textOpen := false;
    }

    method MarkIndex(index: int)
      modifies this`nextIndex
      ensures var marked := Max(index, old(nextIndex));
              nextIndex == if textOpen then Max(marked, textIndex + 1) else marked
    {
      if index > nextIndex {
        nextIndex := index;
      }
      if textOpen && nextIndex <= textIndex {
        nextIndex := textIndex + 1;
      }
    }

    method Complete(stopReason: string, outputTokens: int)
      modifies this`completed, out
      ensures completed
      ensures out.trace == old(out.trace) + if old(completed) then [] else [MessageDelta(stopReason, outputTokens), MessageStop]
    {
      if completed {
        return;
      }
      completed := true;
      out.Emit(MessageDelta(stopReason, outputTokens));
      out.Emit(MessageStop);
    }
  }

  // ---------- what a response should look like on the wire ----------

  datatype Env = Env(lib: Library, digest: string -> string, newID: nat -> string, wire: Wire)

  function InputTokens(u: Usage): int { if u.inputTokens > 0 then u.inputTokens else u.promptTokens }
  function OutputTokens(u: Usage): int { if u.outputTokens > 0 then u.outputTokens else u.completionTokens }

  function StopReason(stopReason: string, hasToolCalls: bool): string {
    var s := TrimSpace(stopReason);
    if hasToolCalls then "tool_use"
    else if s in ["", "stop", "end_turn"] then "end_turn"
    else if s in ["tool_calls", "tool_use"] then "tool_use"
    else s
  }

  function ResolveSignature(env: Env, thinking: string, signature: string): string {
    if TrimSpace(signature) != "" then TrimSpace(signature) else StableSignature(env.digest, thinking)
  }

  function DecodeObject(lib: Library, text: string): Fields {
    match lib.unmarshal(text) case Some(f) => f case None => map[]
  }

  /** The arguments as the stream decodes them: trimmed first. */
  function StreamedArguments(env: Env, call: ToolCall): Fields {
    if Blank(call.arguments) then map[] else DecodeObject(env.lib, TrimSpace(call.arguments))
  }

  /** The input object the stream sends for a call. */
  function Streamed(env: Env): ToolCall -> Fields {
    (call: ToolCall) => RemapToolCallArgs(call.name, StreamedArguments(env, call))
  }

  datatype Part =
    | ThinkingPart(thinking: string, signature: string)
    | TextPart(text: string)
    | ToolPart(id: string, name: string, input: Fields)

  const CHUNK := 160

  function ThinkingDeltas(index: int, chunks: seq<string>): seq<Event> {
    seq(|chunks|, i requires 0 <= i < |chunks| => BlockDelta(index, ThinkingDelta(chunks[i])))
  }

  function TextDeltas(index: int, chunks: seq<string>): seq<Event> {
    seq(|chunks|, i requires 0 <= i < |chunks| => BlockDelta(index, TextDelta(chunks[i])))
  }

  /** One block: a start, its deltas and a stop, all with the same index. */
  function PartEvents(env: Env, index: int, part: Part): seq<Event> {
    match part
    case ThinkingPart(thinking, signature) =>
      [BlockStart(index, ThinkingBlock)] + ThinkingDeltas(index, Chunks(thinking, CHUNK))
      + (if signature == "" then [] else [BlockDelta(index, SignatureDelta(signature))]) + [BlockStop(index)]
    case TextPart(text) =>
      [BlockStart(index, TextBlock)] + TextDeltas(index, Chunks(text, CHUNK)) + [BlockStop(index)]
    case ToolPart(id, name, input) =>
      [BlockStart(index, ToolUseBlock(id, name)), BlockDelta(index, InputJsonDelta(env.lib.marshal(JObject(input)))), BlockStop(index)]
  }

  /** Blocks rendered one after the other with consecutive indices. */
  function Numbered(render: (int, Part) -> seq<Event>, index: int, parts: seq<Part>): seq<Event>
    decreases |parts|
  {
    if parts == [] then [] else render(index, parts[0]) + Numbered(render, index + 1, parts[1..])
  }

  function Rendering(env: Env): (int, Part) -> seq<Event> {
    (index: int, part: Part) => PartEvents(env, index, part)
  }

  function PartsEvents(env: Env, index: int, parts: seq<Part>): seq<Event> {
    Numbered(Rendering(env), index, parts)
  }

  function ThinkingParts(env: Env, r: Response): seq<Part> {
    if Blank(r.thinking) then [] else [ThinkingPart(r.thinking, ResolveSignature(env, r.thinking, r.thinkingSignature))]
  }

  function TextParts(r: Response): seq<Part> {
    if Blank(r.text) then [] else [TextPart(r.text)]
  }

  /** How many fresh ids a call takes. */
  function FreshIds(call: ToolCall): nat {
    if !Blank(call.name) && Blank(call.id) then 1 else 0
  }

  /** A call without a name is skipped; one without an id gets a fresh one, the
      next of the supply after `used` of them. */
  function ToolPartOf(supply: nat -> string, input: ToolCall -> Fields, call: ToolCall, used: nat): seq<Part> {
    if Blank(call.name) then []
    else
      var id := if Blank(call.id) then "toolu_" + supply(used) else TrimSpace(call.id);
      [ToolPart(id, TrimSpace(call.name), input(call))]
  }

  function ToolParts(supply: nat -> string, input: ToolCall -> Fields, calls: seq<ToolCall>, used: nat): seq<Part>
    decreases |calls|
  {
    if calls == [] then []
    else ToolPartOf(supply, input, calls[0], used) + ToolParts(supply, input, calls[1..], used + FreshIds(calls[0]))
  }

  function AllParts(env: Env, r: Response): seq<Part> {
    (ThinkingParts(env, r) + TextParts(r)) + ToolParts(env.newID, Streamed(env), r.toolCalls, 1)
  }

  function MessageID(env: Env, r: Response): string {
    if "msg_" <= TrimSpace(r.id) then TrimSpace(r.id) else "msg_" + env.newID(0)
  }

  function StreamTrace(env: Env, requestedModel: string, r: Response): seq<Event> {
    [MessageStart(MessageID(env, r), FirstNonEmpty(requestedModel, r.model), InputTokens(r.usage))]
    + PartsEvents(env, 0, AllParts(env, r))
    + [MessageDelta(StopReason(r.stopReason, r.toolCalls != []), OutputTokens(r.usage)), MessageStop]
  }

  // ---------- the writers ----------

  lemma {:induction false} NumberedAppend(render: (int, Part) -> seq<Event>, index: int, a: seq<Part>, b: seq<Part>)
    ensures Numbered(render, index, a + b) == Numbered(render, index, a) + Numbered(render, index + |a|, b)
    decreases |a|
  {
    if a == [] {
      assert a + b == b;
    } else {
      assert (a + b)[1..] == a[1..] + b;
      NumberedAppend(render, index + 1, a[1..], b);
    }
  }

  lemma OnePart(env: Env, index: int, p: Part)
    ensures PartsEvents(env, index, [p]) == PartEvents(env, index, p)
  {
    assert [p][1..] == [];
    assert Numbered(Rendering(env), index + 1, []) == [];
  }

  /** EmitStreamToolCall; `used` counts the fresh ids taken so far. */
  method EmitStreamToolCall(env: Env, input: ToolCall -> Fields, out: Emitter<Event>, nextIndex: int, toolCall: ToolCall, used: nat)
      returns (index: int, nowUsed: nat)
    modifies out
    ensures var parts := ToolPartOf(env.newID, input, toolCall, used);
            index == nextIndex + |parts| && out.trace == old(out.trace) + PartsEvents(env, nextIndex, parts)
    ensures nowUsed == used + FreshIds(toolCall)
  {
    index, nowUsed := nextIndex, used;
    var name := TrimSpace(toolCall.name);
    if name == "" {
      return;
    }
    var id := TrimSpace(toolCall.id);
    if id == "" {
      id := "toolu_" + env.newID(used);
      nowUsed := used + 1;
    }
    OnePart(env, nextIndex, ToolPart(id, name, input(toolCall)));
    index := nextIndex + 1;
    out.Emit(BlockStart(nextIndex, ToolUseBlock(id, name)));
    out.Emit(BlockDelta(nextIndex, InputJsonDelta(env.lib.marshal(JObject(input(toolCall))))));
    out.Emit(BlockStop(nextIndex));
  }

  lemma ToolPartsCons(supply: nat -> string, input: ToolCall -> Fields, calls: seq<ToolCall>, used: nat)
    requires calls != []
    ensures ToolParts(supply, input, calls, used)
            == ToolPartOf(supply, input, calls[0], used) + ToolParts(supply, input, calls[1..], used + FreshIds(calls[0]))
  {
  }

  lemma ToolPartsStep(supply: nat -> string, input: ToolCall -> Fields, calls: seq<ToolCall>, i: nat, used: nat)
    requires i < |calls|
    ensures ToolParts(supply, input, calls[i..], used)
            == ToolPartOf(supply, input, calls[i], used) + ToolParts(supply, input, calls[i + 1..], used + FreshIds(calls[i]))
  {
    var rest := calls[i..];
    assert rest[0] == calls[i] && rest[1..] == calls[i + 1..];
    ToolPartsCons(supply, input, rest, used);
  }

  lemma NumberedOnto(render: (int, Part) -> seq<Event>, trace: seq<Event>, index: int, a: seq<Part>, b: seq<Part>)
    ensures trace + Numbered(render, index, a + b) == (trace + Numbered(render, index, a)) + Numbered(render, index + |a|, b)
  {
    NumberedAppend(render, index, a, b);
    Assoc(trace, Numbered(render, index, a), Numbered(render, index + |a|, b));
  }

  /** The call at position i; what is to be reached stays the same. */
  method EmitCallAt(env: Env, input: ToolCall -> Fields, out: Emitter<Event>, calls: seq<ToolCall>, i: nat, nextIndex: int, used: nat,
                    ghost goal: (int, seq<Event>))
      returns (index: int, nowUsed: nat)
    requires i < |calls| && Reached(env, nextIndex, out.trace, ToolParts(env.newID, input, calls[i..], used)) == goal
    modifies out
    ensures Reached(env, index, out.trace, ToolParts(env.newID, input, calls[i + 1..], nowUsed)) == goal
  {
    ReachedStep(env, input, calls, i, nextIndex, used, out.trace);
    index, nowUsed := EmitStreamToolCall(env, input, out, nextIndex, calls[i], used);
  }

  /** The tool-call loop of the stream. */
  method EmitToolCalls(env: Env, input: ToolCall -> Fields, out: Emitter<Event>, start: int, calls: seq<ToolCall>) returns (index: int)
    modifies out
    ensures index == start + |ToolParts(env.newID, input, calls, 1)|
    ensures out.trace == old(out.trace) + PartsEvents(env, start, ToolParts(env.newID, input, calls, 1))
  {
    index := start;
    var used: nat := 1;
    var i := 0;
    ghost var goal := Reached(env, start, out.trace, ToolParts(env.newID, input, calls, 1));
    assert calls[0..] == calls;
    while i < |calls|
      invariant 0 <= i <= |calls|
      invariant Reached(env, index, out.trace, ToolParts(env.newID, input, calls[i..], used)) == goal
    {
      index, used := EmitCallAt(env, input, out, calls, i, index, used, goal);
      i := i + 1;
    }
    ReachedEnd(env, index, out.trace);
  }

  /** Where the index and the trace will be once `left` is emitted. */
  function Reached(env: Env, index: int, trace: seq<Event>, left: seq<Part>): (int, seq<Event>) {
    (index + |left|, trace + PartsEvents(env, index, left))
  }

  lemma ReachedNext(env: Env, index: int, trace: seq<Event>, parts: seq<Part>, left: seq<Part>)
    ensures Reached(env, index, trace, parts + left) == Reached(env, index + |parts|, trace + PartsEvents(env, index, parts), left)
  {
    NumberedOnto(Rendering(env), trace, index, parts, left);
  }

  lemma ReachedStep(env: Env, input: ToolCall -> Fields, calls: seq<ToolCall>, i: nat, index: int, used: nat, trace: seq<Event>)
    requires i < |calls|
    ensures var parts := ToolPartOf(env.newID, input, calls[i], used);
            Reached(env, index, trace, ToolParts(env.newID, input, calls[i..], used))
            == Reached(env, index + |parts|, trace + PartsEvents(env, index, parts),
                       ToolParts(env.newID, input, calls[i + 1..], used + FreshIds(calls[i])))
  {
    var parts, left := ToolPartOf(env.newID, input, calls[i], used), ToolParts(env.newID, input, calls[i + 1..], used + FreshIds(calls[i]));
    ToolPartsStep(env.newID, input, calls, i, used);
    ReachedNext(env, index, trace, parts, left);
  }

  lemma ReachedEnd(env: Env, index: int, trace: seq<Event>)
    ensures Reached(env, index, trace, []) == (index, trace)
  {
    assert trace + [] == trace;
  }

  method EmitThinking(env: Env, out: Emitter<Event>, r: Response) returns (index: int)
    requires !Blank(r.thinking)
    modifies out
    ensures index == 1
    ensures out.trace == old(out.trace) + PartsEvents(env, 0, ThinkingParts(env, r))
  {
    var lifecycle := new ThinkingBlockLifecycle(0, out);
    var chunks := ChunkText(r.thinking, CHUNK);
    ChunksJoin(r.thinking, CHUNK);
    assert chunks != [];
    var i := 0;
    while i < |chunks|
      invariant 0 <= i <= |chunks| && lifecycle.out == out && fresh(lifecycle)
      invariant !lifecycle.signatureEmitted && lifecycle.thinkingOpen == (i > 0)
      invariant lifecycle.nextIndex == if i > 0 then 1 else 0
      invariant i > 0 ==> lifecycle.thinkingIndex == 0
      invariant out.trace == old(out.trace) + (if i > 0 then [BlockStart(0, ThinkingBlock)] else []) + ThinkingDeltas(0, chunks[..i])
    {
      assert ThinkingDeltas(0, chunks[..i + 1]) == ThinkingDeltas(0, chunks[..i]) + [BlockDelta(0, ThinkingDelta(chunks[i]))];
      lifecycle.EmitThinkingDelta(chunks[i]);
      i := i + 1;
    }
    assert chunks[..i] == chunks;
    var signature := ResolveSignature(env, r.thinking, r.thinkingSignature);
    index := lifecycle.PrepareForNextBlock(signature);
    OnePart(env, 0, ThinkingPart(r.thinking, signature));
  }

  /** The events of an open text block after i pieces. */
  function Begun(index: int, chunks: seq<string>, i: nat): seq<Event>
    requires i <= |chunks|
  {
    (if i > 0 then [BlockStart(index, TextBlock)] else []) + TextDeltas(index, chunks[..i])
  }

  lemma BegunNext(index: int, chunks: seq<string>, i: nat)
    requires i < |chunks|
    ensures Begun(index, chunks, i + 1)
            == Begun(index, chunks, i) + (if i == 0 then [BlockStart(index, TextBlock)] else []) + [BlockDelta(index, TextDelta(chunks[i]))]
  {
    assert TextDeltas(index, chunks[..i + 1]) == TextDeltas(index, chunks[..i]) + [BlockDelta(index, TextDelta(chunks[i]))];
  }

  method EmitText(env: Env, out: Emitter<Event>, state: MessageStreamState, text: string)
    requires state.out == out && !state.textOpen && !Blank(text)
    modifies out, state`textOpen, state`textIndex, state`nextIndex
    ensures !state.textOpen && state.nextIndex == old(state.nextIndex) + 1
    ensures out.trace == old(out.trace) + PartEvents(env, old(state.nextIndex), TextPart(text))
  {
    var chunks := ChunkText(text, CHUNK);
    ChunksJoin(text, CHUNK);
    assert chunks != [];
    ghost var at := state.nextIndex;
    var i := 0;
    while i < |chunks|
      invariant 0 <= i <= |chunks|
      invariant state.textOpen == (i > 0) && (i > 0 ==> state.textIndex == at)
      invariant state.nextIndex == if i > 0 then at + 1 else at
      invariant out.trace == old(out.trace) + Begun(at, chunks, i)
    {
      BegunNext(at, chunks, i);
      state.EmitTextDelta(chunks[i]);
      i := i + 1;
    }
    assert chunks[..i] == chunks;
    state.CloseTextBlock();
  }

  /** Thinking and text blocks, in that order and only when not blank. */
  method EmitSpeech(env: Env, out: Emitter<Event>, state: MessageStreamState, r: Response)
    requires state.out == out && !state.textOpen && state.nextIndex == 0
    modifies out, state`textOpen, state`textIndex, state`nextIndex
    ensures !state.textOpen && state.nextIndex == |ThinkingParts(env, r) + TextParts(r)|
    ensures out.trace == old(out.trace) + PartsEvents(env, 0, ThinkingParts(env, r) + TextParts(r))
  {
    ghost var thinking := ThinkingParts(env, r);
    if !Blank(r.thinking) {
      var next := EmitThinking(env, out, r);
      state.MarkIndex(next);
    }
    assert out.trace == old(out.trace) + PartsEvents(env, 0, thinking) && state.nextIndex == |thinking|;
    NumberedAppend(Rendering(env), 0, thinking, TextParts(r));
    if !Blank(r.text) {
      OnePart(env, state.nextIndex, TextPart(r.text));
      EmitText(env, out, state, r.text);
    }
  }

  /** StreamAnthropicMessages. */
  method StreamAnthropicMessages(env: Env, out: Emitter<Event>, requestedModel: string, r: Response)
    modifies out
    ensures out.trace == old(out.trace) + StreamTrace(env, requestedModel, r)
  {
    var state := new MessageStreamState(MessageID(env, r), FirstNonEmpty(requestedModel, r.model), out);
    state.StartMessage(InputTokens(r.usage));
    ghost var start := [MessageStart(state.messageID, state.model, InputTokens(r.usage))];
    EmitBlocks(env, out, state, r);
    ghost var body := PartsEvents(env, 0, AllParts(env, r));
    state.Complete(StopReason(r.stopReason, r.toolCalls != []), OutputTokens(r.usage));
    ghost var stop := [MessageDelta(StopReason(r.stopReason, r.toolCalls != []), OutputTokens(r.usage)), MessageStop];
    Assoc(old(out.trace), start, body);
    Assoc(old(out.trace), start + body, stop);
  }

  /** All content blocks of a response. */
  method EmitBlocks(env: Env, out: Emitter<Event>, state: MessageStreamState, r: Response)
    requires state.out == out && !state.textOpen && state.nextIndex == 0
    modifies out, state`textOpen, state`textIndex, state`nextIndex
    ensures out.trace == old(out.trace) + PartsEvents(env, 0, AllParts(env, r))
  {
    ghost var speech, tools := ThinkingParts(env, r) + TextParts(r), ToolParts(env.newID, Streamed(env), r.toolCalls, 1);
    BlocksJoined(env, out.trace, speech, tools);
    EmitSpeech(env, out, state, r);
    var next := EmitToolCalls(env, Streamed(env), out, state.nextIndex, r.toolCalls);
    state.MarkIndex(next);
    assert AllParts(env, r) == speech + tools;
  }

  lemma BlocksJoined(env: Env, trace: seq<Event>, a: seq<Part>, b: seq<Part>)
    ensures trace + PartsEvents(env, 0, a + b) == trace + PartsEvents(env, 0, a) + PartsEvents(env, |a|, b)
  {
    NumberedOnto(Rendering(env), trace, 0, a, b);
  }

  // ---------- the non-streamed answer ----------

  /** The arguments as IRToMessages decodes them: as they stand. */
  function AnsweredArguments(env: Env, call: ToolCall): Fields {
    if Blank(call.arguments) then map[] else DecodeObject(env.lib, call.arguments)
  }

  function Answered(env: Env): ToolCall -> Fields {
    (call: ToolCall) => RemapToolCallArgs(TrimSpace(call.name), AnsweredArguments(env, call))
  }

  datatype Message = Message(content: seq<Part>, stopReason: string, inputTokens: int, outputTokens: int)

  /** IRToMessages, with its own supply of fresh ids. */
  function IRToMessages(env: Env, r: Response, freshID: nat -> string): Message {
    Message(ThinkingParts(env, r) + TextParts(r) + ToolParts(freshID, Answered(env), r.toolCalls, 0),
            StopReason(r.stopReason, r.toolCalls != []), InputTokens(r.usage), OutputTokens(r.usage))
  }

  // ---------- the reading client ----------

  /** A block under construction. */
  datatype Building = Building(block: Block, thinking: string, signature: string, text: string, partial: string)

  datatype Reader =
    | Waiting
    | Reading(inputTokens: int, done: seq<Part>, open: Option<Building>)
    | Stopping(message: Message)
    | Finished(message: Message)
    | Broken

  /** Only thinking and text are cut into pieces; what is sent in one piece comes
      through as it does in the answer that is not streamed. */
  function Extend(env: Env, b: Building, d: Delta): Option<Building> {
    match (b.block, d)
    case (ThinkingBlock, ThinkingDelta(s)) => Some(b.(thinking := b.thinking + env.wire(s)))
    case (ThinkingBlock, SignatureDelta(s)) => Some(b.(signature := b.signature + s))
    case (TextBlock, TextDelta(s)) => Some(b.(text := b.text + env.wire(s)))
    case (ToolUseBlock(_, _), InputJsonDelta(s)) => Some(b.(partial := b.partial + s))
    case _ => None
  }

  function Finish(env: Env, b: Building): Option<Part> {
    match b.block
    case ThinkingBlock => Some(ThinkingPart(b.thinking, b.signature))
    case TextBlock => Some(TextPart(b.text))
    case ToolUseBlock(id, name) =>
      match env.lib.unmarshal(b.partial)
      case None => None
      case Some(input) => Some(ToolPart(id, name, input))
  }

  /** One event of the protocol: a message_start first, then blocks numbered
      0, 1, 2, ... never two at a time, then message_delta and message_stop. */
  function React(env: Env, s: Reader, e: Event): Reader {
    match (s, e)
    case (Waiting, MessageStart(_, _, tokens)) => Reading(tokens, [], None)
    case (Reading(tokens, done, None), BlockStart(index, block)) =>
      if index == |done| then Reading(tokens, done, Some(Building(block, "", "", "", ""))) else Broken
    case (Reading(tokens, done, Some(b)), BlockDelta(index, delta)) =>
      if index == |done| && Extend(env, b, delta).Some? then Reading(tokens, done, Extend(env, b, delta)) else Broken
    case (Reading(tokens, done, Some(b)), BlockStop(index)) =>
      if index == |done| && Finish(env, b).Some? then Reading(tokens, done + [Finish(env, b).value], None) else Broken
    case (Reading(tokens, done, None), MessageDelta(stopReason, outputTokens)) =>
      Stopping(Message(done, stopReason, tokens, outputTokens))
    case (Stopping(message), MessageStop) => Finished(message)
    case _ => Broken
  }

  function ReadAll(env: Env, s: Reader, events: seq<Event>): Reader
    decreases |events|
  {
    if events == [] then s else ReadAll(env, React(env, s, events[0]), events[1..])
  }

  lemma {:induction false} ReadAppend(env: Env, s: Reader, a: seq<Event>, b: seq<Event>)
    ensures ReadAll(env, s, a + b) == ReadAll(env, ReadAll(env, s, a), b)
    decreases |a|
  {
    if a == [] {
      assert a + b == b;
    } else {
      assert (a + b)[1..] == a[1..] + b;
      ReadAppend(env, React(env, s, a[0]), a[1..], b);
    }
  }

  lemma ReadOne(env: Env, s: Reader, e: Event)
    ensures ReadAll(env, s, [e]) == React(env, s, e)
  {
    assert [e][1..] == [];
    assert ReadAll(env, React(env, s, e), []) == React(env, s, e);
  }

  lemma {:induction false} ReadThinking(env: Env, tokens: int, done: seq<Part>, b: Building, chunks: seq<string>)
    requires b.block.ThinkingBlock? && Whole(env.wire, chunks)
    ensures ReadAll(env, Reading(tokens, done, Some(b)), ThinkingDeltas(|done|, chunks))
            == Reading(tokens, done, Some(b.(thinking := b.thinking + Concat(chunks))))
    decreases |chunks|
  {
    if chunks == [] {
      assert b.thinking + "" == b.thinking;
    } else {
      var events := ThinkingDeltas(|done|, chunks);
      assert events[1..] == ThinkingDeltas(|done|, chunks[1..]);
      ReadThinking(env, tokens, done, b.(thinking := b.thinking + chunks[0]), chunks[1..]);
      assert b.thinking + chunks[0] + Concat(chunks[1..]) == b.thinking + Concat(chunks);
    }
  }

  lemma {:induction false} ReadText(env: Env, tokens: int, done: seq<Part>, b: Building, chunks: seq<string>)
    requires b.block.TextBlock? && Whole(env.wire, chunks)
    ensures ReadAll(env, Reading(tokens, done, Some(b)), TextDeltas(|done|, chunks))
            == Reading(tokens, done, Some(b.(text := b.text + Concat(chunks))))
    decreases |chunks|
  {
    if chunks == [] {
      assert b.text + "" == b.text;
    } else {
      var events := TextDeltas(|done|, chunks);
      assert events[1..] == TextDeltas(|done|, chunks[1..]);
      ReadText(env, tokens, done, b.(text := b.text + chunks[0]), chunks[1..]);
      assert b.text + chunks[0] + Concat(chunks[1..]) == b.text + Concat(chunks);
    }
  }

  /** A part whose text is not one that chunking drops. */
  predicate Spoken(p: Part) {
    match p
    case ThinkingPart(thinking, _) => !Blank(thinking)
    case TextPart(text) => !Blank(text)
    case ToolPart(_, _, _) => true
  }

  /** A part that comes back from its events: no piece of it ends inside a rune,
      and its input is carried. */
  ghost predicate Sendable(env: Env, p: Part) {
    Spoken(p) && Whole(env.wire, Chunks(Said(p), CHUNK)) && (p.ToolPart? ==> Carries(env.lib.range, JObject(p.input)))
  }

  function Said(p: Part): string {
    match p
    case ThinkingPart(thinking, _) => thinking
    case TextPart(text) => text
    case ToolPart(_, _, _) => ""
  }

  lemma ReadThinkingPieces(env: Env, tokens: int, done: seq<Part>, chunks: seq<string>, sign: seq<Event>, signature: string)
    requires Whole(env.wire, chunks) && sign == if signature == "" then [] else [BlockDelta(|done|, SignatureDelta(signature))]
    ensures ReadAll(env, Reading(tokens, done, None),
                    [BlockStart(|done|, ThinkingBlock)] + ThinkingDeltas(|done|, chunks) + sign + [BlockStop(|done|)])
            == Reading(tokens, done + [ThinkingPart(Concat(chunks), signature)], None)
  {
    var n, thinking := |done|, Concat(chunks);
    var b := Building(ThinkingBlock, "", "", "", "");
    var said, signed := b.(thinking := thinking), b.(thinking := thinking, signature := signature);
    ReadThinking(env, tokens, done, b, chunks);
    assert "" + thinking == thinking;
    ReadSignature(env, tokens, done, said, signature);
    ReadOne(env, Reading(tokens, done, None), BlockStart(n, ThinkingBlock));
    ReadOne(env, Reading(tokens, done, Some(signed)), BlockStop(n));
    ReadInFour(env, Reading(tokens, done, None), [BlockStart(n, ThinkingBlock)], ThinkingDeltas(n, chunks), sign, [BlockStop(n)]);
  }

  lemma ReadThinkingPart(env: Env, tokens: int, done: seq<Part>, thinking: string, signature: string)
    requires !Blank(thinking) && Whole(env.wire, Chunks(thinking, CHUNK))
    ensures ReadAll(env, Reading(tokens, done, None), PartEvents(env, |done|, ThinkingPart(thinking, signature)))
            == Reading(tokens, done + [ThinkingPart(thinking, signature)], None)
  {
    ChunksJoin(thinking, CHUNK);
    var sign := if signature == "" then [] else [BlockDelta(|done|, SignatureDelta(signature))];
    ReadThinkingPieces(env, tokens, done, Chunks(thinking, CHUNK), sign, signature);
  }

  lemma ReadInThree(env: Env, s: Reader, a: seq<Event>, b: seq<Event>, c: seq<Event>)
    ensures ReadAll(env, s, a + b + c) == ReadAll(env, ReadAll(env, ReadAll(env, s, a), b), c)
  {
    ReadAppend(env, s, a, b);
    ReadAppend(env, s, a + b, c);
  }

  lemma ReadInFour(env: Env, s: Reader, a: seq<Event>, b: seq<Event>, c: seq<Event>, d: seq<Event>)
    ensures ReadAll(env, s, a + b + c + d) == ReadAll(env, ReadAll(env, ReadAll(env, ReadAll(env, s, a), b), c), d)
  {
    ReadAppend(env, s, a, b);
    ReadAppend(env, s, a + b, c);
    ReadAppend(env, s, a + b + c, d);
  }

  lemma ReadSignature(env: Env, tokens: int, done: seq<Part>, b: Building, signature: string)
    requires b.block.ThinkingBlock? && b.signature == ""
    ensures ReadAll(env, Reading(tokens, done, Some(b)), if signature == "" then [] else [BlockDelta(|done|, SignatureDelta(signature))])
            == Reading(tokens, done, Some(b.(signature := signature)))
  {
    if signature != "" {
      ReadOne(env, Reading(tokens, done, Some(b)), BlockDelta(|done|, SignatureDelta(signature)));
      assert "" + signature == signature;
    }
  }

  lemma ReadTextPieces(env: Env, tokens: int, done: seq<Part>, chunks: seq<string>)
    requires Whole(env.wire, chunks)
    ensures ReadAll(env, Reading(tokens, done, None), [BlockStart(|done|, TextBlock)] + TextDeltas(|done|, chunks) + [BlockStop(|done|)])
            == Reading(tokens, done + [TextPart(Concat(chunks))], None)
  {
    var n, text := |done|, Concat(chunks);
    var b := Building(TextBlock, "", "", "", "");
    ReadText(env, tokens, done, b, chunks);
    assert "" + text == text;
    ReadOne(env, Reading(tokens, done, None), BlockStart(n, TextBlock));
    ReadOne(env, Reading(tokens, done, Some(b.(text := text))), BlockStop(n));
    ReadInThree(env, Reading(tokens, done, None), [BlockStart(n, TextBlock)], TextDeltas(n, chunks), [BlockStop(n)]);
  }

  lemma ReadTextPart(env: Env, tokens: int, done: seq<Part>, text: string)
    requires !Blank(text) && Whole(env.wire, Chunks(text, CHUNK))
    ensures ReadAll(env, Reading(tokens, done, None), PartEvents(env, |done|, TextPart(text)))
            == Reading(tokens, done + [TextPart(text)], None)
  {
    ChunksJoin(text, CHUNK);
    ReadTextPieces(env, tokens, done, Chunks(text, CHUNK));
  }

  lemma ReadToolPart(env: Env, tokens: int, done: seq<Part>, id: string, name: string, input: Fields)
    requires Inverse(env.lib) && Carries(env.lib.range, JObject(input))
    ensures ReadAll(env, Reading(tokens, done, None), PartEvents(env, |done|, ToolPart(id, name, input)))
            == Reading(tokens, done + [ToolPart(id, name, input)], None)
  {
    var s := Reading(tokens, done, None);
    var n := |done|;
    var json := env.lib.marshal(JObject(input));
    assert env.lib.unmarshal(json) == Some(input);
    assert "" + json == json;
    var b := Building(ToolUseBlock(id, name), "", "", "", "");
    var start, delta, stop := BlockStart(n, ToolUseBlock(id, name)), BlockDelta(n, InputJsonDelta(json)), BlockStop(n);
    ReadThree(env, s, start, delta, stop);
    assert React(env, s, start) == Reading(tokens, done, Some(b));
    assert React(env, React(env, s, start), delta) == Reading(tokens, done, Some(b.(partial := json)));
  }

  lemma ReadThree(env: Env, s: Reader, e1: Event, e2: Event, e3: Event)
    ensures ReadAll(env, s, [e1, e2, e3]) == React(env, React(env, React(env, s, e1), e2), e3)
  {
    assert [e1, e2, e3][1..] == [e2, e3];
    assert [e2, e3][1..] == [e3];
    ReadOne(env, React(env, React(env, s, e1), e2), e3);
  }

  lemma ReadPart(env: Env, tokens: int, done: seq<Part>, p: Part)
    requires Inverse(env.lib) && Sendable(env, p)
    ensures ReadAll(env, Reading(tokens, done, None), PartEvents(env, |done|, p)) == Reading(tokens, done + [p], None)
  {
    match p
    case ThinkingPart(thinking, signature) => ReadThinkingPart(env, tokens, done, thinking, signature);
    case TextPart(text) => ReadTextPart(env, tokens, done, text);
    case ToolPart(id, name, input) => ReadToolPart(env, tokens, done, id, name, input);
  }

  ghost predicate AllSendable(env: Env, parts: seq<Part>) {
    forall i :: 0 <= i < |parts| ==> Sendable(env, parts[i])
  }

  lemma SendableRest(env: Env, parts: seq<Part>)
    requires parts != [] && AllSendable(env, parts)
    ensures Sendable(env, parts[0]) && AllSendable(env, parts[1..])
  {
  }

  /** The parts' events, read where `done` is done, add the parts. */
  ghost predicate AddsParts(env: Env, tokens: int, done: seq<Part>, parts: seq<Part>) {
    ReadAll(env, Reading(tokens, done, None), PartsEvents(env, |done|, parts)) == Reading(tokens, done + parts, None)
  }

  lemma AddsNoParts(env: Env, tokens: int, done: seq<Part>)
    ensures AddsParts(env, tokens, done, [])
  {
    assert done + [] == done;
  }

  lemma AddsFirstPart(env: Env, tokens: int, done: seq<Part>, parts: seq<Part>)
    requires Inverse(env.lib) && parts != [] && Sendable(env, parts[0])
    requires AddsParts(env, tokens, done + [parts[0]], parts[1..])
    ensures AddsParts(env, tokens, done, parts)
  {
    var p, rest := parts[0], parts[1..];
    ReadPart(env, tokens, done, p);
    ReadAppend(env, Reading(tokens, done, None), PartEvents(env, |done|, p), PartsEvents(env, |done| + 1, rest));
    assert done + [p] + rest == done + parts;
  }

  lemma {:induction false} ReadParts(env: Env, tokens: int, done: seq<Part>, parts: seq<Part>)
    requires Inverse(env.lib) && AllSendable(env, parts)
    ensures AddsParts(env, tokens, done, parts)
    decreases |parts|
  {
    if parts == [] {
      AddsNoParts(env, tokens, done);
    } else {
      SendableRest(env, parts);
      ReadParts(env, tokens, done + [parts[0]], parts[1..]);
      AddsFirstPart(env, tokens, done, parts);
    }
  }

  lemma {:induction false} ToolPartsSendable(supply: nat -> string, input: ToolCall -> Fields, calls: seq<ToolCall>, used: nat)
    ensures forall p :: p in ToolParts(supply, input, calls, used) ==> p.ToolPart? && exists call :: p.input == input(call)
    decreases |calls|
  {
    if calls != [] {
      ToolPartsSendable(supply, input, calls[1..], used + FreshIds(calls[0]));
    }
  }

  /** What the stream sends as the input of a call is carried. */
  lemma InputCarried(env: Env, call: ToolCall)
    requires Inverse(env.lib)
    ensures Carries(env.lib.range, JObject(Streamed(env)(call)))
  {
    RemapCarried(env.lib.range, call.name, StreamedArguments(env, call));
  }

  /** No visible thinking or text is cut inside a rune. */
  ghost predicate Uncut(env: Env, r: Response) {
    && (Blank(r.thinking) || Whole(env.wire, Chunks(r.thinking, CHUNK)))
    && (Blank(r.text) || Whole(env.wire, Chunks(r.text, CHUNK)))
  }

  lemma AsciiUncut(env: Env, r: Response)
    requires KeepsAscii(env.wire) && Ascii(r.thinking) && Ascii(r.text)
    ensures Uncut(env, r)
  {
    AsciiWhole(env.wire, r.thinking, CHUNK);
    AsciiWhole(env.wire, r.text, CHUNK);
  }

  lemma FrontSpoken(env: Env, r: Response)
    ensures forall p :: p in ThinkingParts(env, r) + TextParts(r) ==> Spoken(p) && !p.ToolPart?
    ensures Uncut(env, r) ==> forall p :: p in ThinkingParts(env, r) + TextParts(r) ==> Whole(env.wire, Chunks(Said(p), CHUNK))
  {
  }

  lemma AllPartsSpoken(env: Env, r: Response)
    ensures forall i :: 0 <= i < |AllParts(env, r)| ==> Spoken(AllParts(env, r)[i])
  {
    FrontSpoken(env, r);
    var front, tools := ThinkingParts(env, r) + TextParts(r), ToolParts(env.newID, Streamed(env), r.toolCalls, 1);
    ToolPartsSendable(env.newID, Streamed(env), r.toolCalls, 1);
    assert forall p :: p in front + tools ==> Spoken(p);
    assert AllParts(env, r) == front + tools;
  }

  lemma AllPartsSendable(env: Env, r: Response)
    requires Inverse(env.lib) && Uncut(env, r)
    ensures AllSendable(env, AllParts(env, r))
  {
    var front, tools := ThinkingParts(env, r) + TextParts(r), ToolParts(env.newID, Streamed(env), r.toolCalls, 1);
    FrontSpoken(env, r);
    ToolPartsSendable(env.newID, Streamed(env), r.toolCalls, 1);
    ChunksJoin("", CHUNK);
    BlankMeansSpaces("");
    forall p | p in tools ensures Sendable(env, p) {
      var call :| p.input == Streamed(env)(call);
      InputCarried(env, call);
    }
    assert forall p :: p in front + tools ==> Sendable(env, p);
    assert AllParts(env, r) == front + tools;
  }

  /** The closing events, whatever the blocks were. */
  lemma ReadEnvelope(env: Env, start: Event, body: seq<Event>, parts: seq<Part>, stop: Event)
    requires start.MessageStart? && stop.MessageDelta?
    requires ReadAll(env, Reading(start.inputTokens, [], None), body) == Reading(start.inputTokens, parts, None)
    ensures ReadAll(env, Waiting, [start] + body + [stop, MessageStop])
            == Finished(Message(parts, stop.stopReason, start.inputTokens, stop.outputTokens))
  {
    ReadOne(env, Waiting, start);
    ReadAppend(env, Waiting, [start], body);
    ReadAppend(env, Waiting, [start] + body, [stop, MessageStop]);
    assert [stop, MessageStop][1..] == [MessageStop];
    ReadOne(env, React(env, Reading(start.inputTokens, parts, None), stop), MessageStop);
  }

  /** Every stream is a well-formed word of the protocol and folds to the parts
      it was made from, the stop reason and the usage. */
  lemma StreamReadsBack(env: Env, requestedModel: string, r: Response)
    requires Inverse(env.lib) && Uncut(env, r)
    ensures ReadAll(env, Waiting, StreamTrace(env, requestedModel, r))
            == Finished(Message(AllParts(env, r), StopReason(r.stopReason, r.toolCalls != []),
                                InputTokens(r.usage), OutputTokens(r.usage)))
  {
    var parts := AllParts(env, r);
    AllPartsSendable(env, r);
    var start := MessageStart(MessageID(env, r), FirstNonEmpty(requestedModel, r.model), InputTokens(r.usage));
    ReadParts(env, start.inputTokens, [], parts);
    assert [] + parts == parts;
    var stop := MessageDelta(StopReason(r.stopReason, r.toolCalls != []), OutputTokens(r.usage));
    ReadEnvelope(env, start, PartsEvents(env, 0, parts), parts, stop);
  }

  // ---------- streamed and non-streamed agree ----------

  predicate IdsGiven(calls: seq<ToolCall>) {
    forall i :: 0 <= i < |calls| ==> !Blank(calls[i].id)
  }

  /** The edges of the arguments hold no whitespace that Go trims but JSON does
      not allow. */
  predicate PlainEdges(call: ToolCall) {
    JsonTrim(call.arguments) == TrimSpace(call.arguments)
  }

  /** What a caller can check about a call: its edges are plain, or trimming
      them anyway leaves an object that remaps like the empty one. */
  predicate Agreeable(env: Env, call: ToolCall) {
    Blank(call.name) || PlainEdges(call) ||
    RemapToolCallArgs(call.name, StreamedArguments(env, call)) == RemapToolCallArgs(call.name, map[])
  }

  lemma ArgumentsAgree(env: Env, call: ToolCall)
    requires IgnoresSpace(env.lib)
    ensures PlainEdges(call) ==> StreamedArguments(env, call) == AnsweredArguments(env, call)
    ensures !PlainEdges(call) ==> AnsweredArguments(env, call) == map[]
  {
    assert env.lib.unmarshal(call.arguments) == env.lib.unmarshal(JsonTrim(call.arguments));
    JsonTrimThenTrim(call.arguments);
    if Trimmed(JsonTrim(call.arguments)) {
      TrimmedIsItself(JsonTrim(call.arguments));
    }
  }

  lemma SameTool(name: string, a: Fields, b: Fields)
    requires a == b
    ensures RemapToolCallArgs(TrimSpace(name), b) == RemapToolCallArgs(name, a)
  {
    TrimSpaceTrimmed(name);
  }

  lemma InputsAgree(env: Env, call: ToolCall)
    requires IgnoresSpace(env.lib)
    ensures Agreeable(env, call) <==> Blank(call.name) || Streamed(env)(call) == Answered(env)(call)
  {
    ArgumentsAgree(env, call);
    SameTool(call.name, AnsweredArguments(env, call), AnsweredArguments(env, call));
  }

  lemma SameLists<T>(a: seq<T>, b: seq<T>, c: seq<T>, d: seq<T>)
    requires |a| == |b|
    ensures a + c == b + d <==> a == b && c == d
  {
    if a + c == b + d {
      assert a == (a + c)[..|a|] == b;
      assert c == (a + c)[|a|..] == d;
    }
  }

  lemma {:induction false} ToolsAgree(s: nat -> string, t: nat -> string, f: ToolCall -> Fields, g: ToolCall -> Fields,
                                      calls: seq<ToolCall>, used: nat)
    requires IdsGiven(calls)
    ensures ToolParts(s, f, calls, used) == ToolParts(t, g, calls, 0)
            <==> forall i :: 0 <= i < |calls| ==> Blank(calls[i].name) || f(calls[i]) == g(calls[i])
    decreases |calls|
  {
    if calls != [] {
      var rest := calls[1..];
      ToolsAgree(s, t, f, g, rest, used);
      SameLists(ToolPartOf(s, f, calls[0], used), ToolPartOf(t, g, calls[0], 0), ToolParts(s, f, rest, used), ToolParts(t, g, rest, 0));
      assert forall i :: 0 < i < |calls| ==> calls[i] == rest[i - 1];
      assert forall i :: 0 <= i < |rest| ==> rest[i] == calls[i + 1];
    }
  }

  /** For every response whose tool calls carry ids, reading the stream gives
      exactly the message the non-streamed path answers with, content list, stop
      reason and usage, if and only if every call is agreeable. */
  lemma StreamEqualsAnswer(env: Env, requestedModel: string, r: Response, freshID: nat -> string)
    requires Inverse(env.lib) && IgnoresSpace(env.lib) && IdsGiven(r.toolCalls) && Uncut(env, r)
    ensures ReadAll(env, Waiting, StreamTrace(env, requestedModel, r)) == Finished(IRToMessages(env, r, freshID))
            <==> forall i :: 0 <= i < |r.toolCalls| ==> Agreeable(env, r.toolCalls[i])
  {
    StreamReadsBack(env, requestedModel, r);
    var f, g := Streamed(env), Answered(env);
    ToolsAgree(env.newID, freshID, f, g, r.toolCalls, 1);
    var front := ThinkingParts(env, r) + TextParts(r);
    SameLists(front, front, ToolParts(env.newID, f, r.toolCalls, 1), ToolParts(freshID, g, r.toolCalls, 0));
    forall i | 0 <= i < |r.toolCalls|
      ensures Agreeable(env, r.toolCalls[i]) <==> Blank(r.toolCalls[i].name) || f(r.toolCalls[i]) == g(r.toolCalls[i])
    {
      InputsAgree(env, r.toolCalls[i]);
    }
  }

  /** Arguments as both providers' converters set them: encoded by the library,
      or the empty object. */
  ghost predicate Encoded(lib: Library, arguments: string) {
    arguments == "{}" || exists f :: Carries(lib.range, JObject(f)) && arguments == lib.marshal(JObject(f))
  }

  lemma EncodedIsPlain(env: Env, call: ToolCall)
    requires Inverse(env.lib) && IgnoresSpace(env.lib) && Encoded(env.lib, call.arguments)
    ensures PlainEdges(call)
  {
    if call.arguments != "{}" {
      var f :| Carries(env.lib.range, JObject(f)) && call.arguments == env.lib.marshal(JObject(f));
      assert env.lib.unmarshal(call.arguments) == Some(f);
    }
    JsonTrimThenTrim(call.arguments);
    TrimmedIsItself(JsonTrim(call.arguments));
  }

  /** So for every response the converters build, with ids given, the stream and
      the answer say the same. */
  lemma ConvertedStreamEqualsAnswer(env: Env, requestedModel: string, r: Response, freshID: nat -> string)
    requires Inverse(env.lib) && IgnoresSpace(env.lib) && IdsGiven(r.toolCalls) && Uncut(env, r)
    requires forall i :: 0 <= i < |r.toolCalls| ==> Encoded(env.lib, r.toolCalls[i].arguments)
    ensures ReadAll(env, Waiting, StreamTrace(env, requestedModel, r)) == Finished(IRToMessages(env, r, freshID))
  {
    forall i | 0 <= i < |r.toolCalls| ensures Agreeable(env, r.toolCalls[i]) {
      EncodedIsPlain(env, r.toolCalls[i]);
    }
    StreamEqualsAnswer(env, requestedModel, r, freshID);
  }

  const SAMPLE: Fields := map["a" := JString("b")]

  /** A vertical tab is white space to be trimmed, but not in JSON. */
  lemma AfterTab(body: string)
    requires body != "" && Trimmed(body)
    ensures TrimSpace([11 as char] + body) == body && JsonTrim([11 as char] + body) == [11 as char] + body
  {
    var tab: string := [11 as char];
    assert tab[1..] == "";
    TrimLeftRun(tab, body);
    TrimmedIsItself(body);
    assert (tab + body)[|body|] == body[|body| - 1];
  }

  lemma TabbedArguments(env: Env, call: ToolCall, f: Fields)
    requires Inverse(env.lib) && IgnoresSpace(env.lib) && env.lib.unmarshal("") == None
    requires Carries(env.lib.range, JObject(f)) && call.arguments == [11 as char] + JsonTrim(env.lib.marshal(JObject(f)))
    ensures StreamedArguments(env, call) == f && AnsweredArguments(env, call) == map[]
  {
    var text := env.lib.marshal(JObject(f));
    var body := JsonTrim(text);
    assert env.lib.unmarshal(text) == Some(f) && env.lib.unmarshal(body) == Some(f) && Trimmed(body);
    AfterTab(body);
    ArgumentsAgree(env, call);
  }

  lemma OtherTool(args: Fields)
    requires "paths" !in args
    ensures RemapToolCallArgs("x", args) == args
  {
    TrimmedIsItself("x");
    assert Lower("x") == "x";
  }

  lemma TabbedInputs(env: Env, call: ToolCall, f: Fields)
    requires Inverse(env.lib) && IgnoresSpace(env.lib) && env.lib.unmarshal("") == None
    requires call.name == "x" && RemapToolCallArgs("x", f) == f && RemapToolCallArgs("x", map[]) == map[] && TrimSpace("x") == "x"
    requires Carries(env.lib.range, JObject(f)) && call.arguments == [11 as char] + JsonTrim(env.lib.marshal(JObject(f)))
    ensures Streamed(env)(call) == f && Answered(env)(call) == map[]
  {
    TabbedArguments(env, call, f);
  }

  lemma OneDisagrees(env: Env, requestedModel: string, r: Response, freshID: nat -> string, call: ToolCall)
    requires Inverse(env.lib) && IgnoresSpace(env.lib) && Uncut(env, r) && r.toolCalls == [call] && !Blank(call.id) && !Blank(call.name)
    requires Streamed(env)(call) != Answered(env)(call)
    ensures ReadAll(env, Waiting, StreamTrace(env, requestedModel, r)) != Finished(IRToMessages(env, r, freshID))
  {
    InputsAgree(env, call);
    assert !Agreeable(env, r.toolCalls[0]);
    StreamEqualsAnswer(env, requestedModel, r, freshID);
  }

  /** A vertical tab before the encoding of {"a": "b"}. */
  function TabbedCall(lib: Library): ToolCall {
    ToolCall("c", "x", [11 as char] + JsonTrim(lib.marshal(JObject(SAMPLE))))
  }

  lemma TabbedCallInputs(env: Env)
    requires Inverse(env.lib) && IgnoresSpace(env.lib) && env.lib.unmarshal("") == None
    ensures Streamed(env)(TabbedCall(env.lib)) == SAMPLE && Answered(env)(TabbedCall(env.lib)) == map[]
  {
    OtherTool(SAMPLE);
    OtherTool(map[]);
    TrimmedIsItself("x");
    assert Carries(env.lib.range, SAMPLE["a"]) && env.lib.range.text("a");
    TabbedInputs(env, TabbedCall(env.lib), SAMPLE);
  }

  lemma TabbedCallNamed(lib: Library)
    ensures !Blank(TabbedCall(lib).id) && !Blank(TabbedCall(lib).name) && SAMPLE != map[]
  {
    TrimmedIsItself("c");
    TrimmedIsItself("x");
    assert "a" in SAMPLE;
  }

  /** With such a call the stream sends the object, the non-streamed answer an
      empty one. */
  lemma StreamDiffersOnVerticalTab(env: Env, requestedModel: string, r: Response, freshID: nat -> string)
    requires Inverse(env.lib) && IgnoresSpace(env.lib) && env.lib.unmarshal("") == None
    requires Uncut(env, r) && r.toolCalls == [TabbedCall(env.lib)]
    ensures Streamed(env)(TabbedCall(env.lib)) == SAMPLE && Answered(env)(TabbedCall(env.lib)) == map[]
    ensures ReadAll(env, Waiting, StreamTrace(env, requestedModel, r)) != Finished(IRToMessages(env, r, freshID))
  {
    TabbedCallInputs(env);
    TabbedCallNamed(env.lib);
    OneDisagrees(env, requestedModel, r, freshID, TabbedCall(env.lib));
  }
}
