/** Writer and reader composed: what the endpoint tester shows of the streams
    the backend writes. */
module ReadBack {
  import opened Text
  import opened JsonValues
  import opened Models
  import opened Sse
  import opened EndpointTester
  import A = AnthropicStream
  import R = ResponsesStream
  import JsonText

  function Str(s: string): Json { JString(s) }
  function Num(n: int): Json { JNumber(n as real) }

  // ---------- Anthropic payloads ----------

  function AnthropicName(e: A.Event): string {
    match e
    case MessageStart(_, _, _) => "message_start"
    case BlockStart(_, _) => "content_block_start"
    case BlockDelta(_, _) => "content_block_delta"
    case BlockStop(_) => "content_block_stop"
    case MessageDelta(_, _) => "message_delta"
    case MessageStop => "message_stop"
  }

  function DeltaFields(d: A.Delta): Fields {
    match d
    case ThinkingDelta(s) => map["type" := Str("thinking_delta"), "thinking" := Str(s)]
    case SignatureDelta(s) => map["type" := Str("signature_delta"), "signature" := Str(s)]
    case TextDelta(s) => map["type" := Str("text_delta"), "text" := Str(s)]
    case InputJsonDelta(s) => map["type" := Str("input_json_delta"), "partial_json" := Str(s)]
  }

  function BlockFields(b: A.Block): Fields {
    match b
    case ThinkingBlock => map["type" := Str("thinking"), "thinking" := Str(""), "signature" := Str("")]
    case TextBlock => map["type" := Str("text"), "text" := Str("")]
    case ToolUseBlock(id, name) => map["type" := Str("tool_use"), "id" := Str(id), "name" := Str(name), "input" := JObject(map[])]
  }

  function MessageFields(id: string, model: string, inputTokens: int): Fields {
    map["id" := Str(id), "type" := Str("message"), "role" := Str("assistant"), "model" := Str(model),
        "content" := JArray([]), "stop_reason" := JNull, "stop_sequence" := JNull,
        "usage" := JObject(map["input_tokens" := Num(inputTokens), "output_tokens" := Num(0)])]
  }

  function AnthropicFields(e: A.Event): Fields {
    match e
    case MessageStart(id, model, tokens) =>
      map["type" := Str("message_start"), "message" := JObject(MessageFields(id, model, tokens))]
    case BlockStart(i, block) =>
      map["type" := Str("content_block_start"), "index" := Num(i), "content_block" := JObject(BlockFields(block))]
    case BlockDelta(i, delta) =>
      map["type" := Str("content_block_delta"), "index" := Num(i), "delta" := JObject(DeltaFields(delta))]
    case BlockStop(i) => map["type" := Str("content_block_stop"), "index" := Num(i)]
    case MessageDelta(stop, tokens) =>
      map["type" := Str("message_delta"), "delta" := JObject(map["stop_reason" := Str(stop), "stop_sequence" := JNull]),
          "usage" := JObject(map["output_tokens" := Num(tokens)])]
    case MessageStop => map["type" := Str("message_stop")]
  }

  function AnthropicNamed(e: A.Event): Named {
    Named(AnthropicName(e), JObject(AnthropicFields(e)))
  }

  function AnthropicWire(events: seq<A.Event>): seq<Named> {
    seq(|events|, i requires 0 <= i < |events| => AnthropicNamed(events[i]))
  }

  function Sent(d: A.Delta): string {
    match d
    case ThinkingDelta(s) => s
    case SignatureDelta(s) => s
    case TextDelta(s) => s
    case InputJsonDelta(s) => s
  }

  /** The strings and the numbers of an event are carried as JSON. */
  ghost predicate Says(range: Range, e: A.Event) {
    match e
    case MessageStart(id, model, tokens) => range.text(id) && range.text(model) && range.number(tokens as real) && range.number(0.0)
    case BlockStart(i, block) => range.number(i as real) && (block.ToolUseBlock? ==> range.text(block.id) && range.text(block.name))
    case BlockDelta(i, delta) => range.number(i as real) && range.text(Sent(delta))
    case BlockStop(i) => range.number(i as real)
    case MessageDelta(stop, tokens) => range.text(stop) && range.number(tokens as real)
    case MessageStop => true
  }

  lemma StartCarried(range: Range, id: string, model: string, tokens: int)
    requires Proper(range) && range.text(id) && range.text(model) && range.number(tokens as real) && range.number(0.0)
    ensures Carries(range, JObject(MessageFields(id, model, tokens)))
  {
    UsageCarried(range, tokens);
    ThreeCarried(range, "id", Str(id), "type", Str("message"), "role", Str("assistant"));
    FiveMoreCarried(range, map["id" := Str(id), "type" := Str("message"), "role" := Str("assistant")],
                    "model", Str(model), "content", JArray([]), "stop_reason", JNull, "stop_sequence", JNull,
                    "usage", JObject(map["input_tokens" := Num(tokens), "output_tokens" := Num(0)]));
  }

  lemma UsageCarried(range: Range, tokens: int)
    requires Proper(range) && range.number(tokens as real) && range.number(0.0)
    ensures Carries(range, JObject(map["input_tokens" := Num(tokens), "output_tokens" := Num(0)]))
  {
    TwoCarried(range, "input_tokens", Num(tokens), "output_tokens", Num(0));
  }

  lemma BlockCarried(range: Range, b: A.Block)
    requires Proper(range) && (b.ToolUseBlock? ==> range.text(b.id) && range.text(b.name))
    ensures Carries(range, JObject(BlockFields(b)))
  {
    match b
    case ThinkingBlock => ThreeCarried(range, "type", Str("thinking"), "thinking", Str(""), "signature", Str(""));
    case TextBlock => TwoCarried(range, "type", Str("text"), "text", Str(""));
    case ToolUseBlock(id, name) =>
      ThreeCarried(range, "type", Str("tool_use"), "id", Str(id), "name", Str(name));
      PutCarried(range, map["type" := Str("tool_use"), "id" := Str(id), "name" := Str(name)], "input", JObject(map[]));
  }

  lemma DeltaCarried(range: Range, d: A.Delta)
    requires Proper(range) && range.text(Sent(d))
    ensures Carries(range, JObject(DeltaFields(d)))
  {
    match d
    case ThinkingDelta(s) => TwoCarried(range, "type", Str("thinking_delta"), "thinking", Str(s));
    case SignatureDelta(s) => TwoCarried(range, "type", Str("signature_delta"), "signature", Str(s));
    case TextDelta(s) => TwoCarried(range, "type", Str("text_delta"), "text", Str(s));
    case InputJsonDelta(s) => TwoCarried(range, "type", Str("input_json_delta"), "partial_json", Str(s));
  }

  /** Then the payload is carried as a whole. */
  lemma AnthropicCarried(range: Range, e: A.Event)
    requires Proper(range) && Says(range, e)
    ensures Carries(range, AnthropicNamed(e).payload)
  {
    match e
    case MessageStart(id, model, tokens) => BeginCarried(range, id, model, tokens);
    case BlockStart(i, block) => BlockStartCarried(range, i, block);
    case BlockDelta(i, delta) => BlockDeltaCarried(range, i, delta);
    case BlockStop(i) => TwoCarried(range, "type", Str("content_block_stop"), "index", Num(i));
    case MessageDelta(stop, tokens) => StopCarried(range, stop, tokens);
    case MessageStop => OneCarried(range, "type", Str("message_stop"));
  }

  lemma BlockStartCarried(range: Range, i: int, block: A.Block)
    requires Proper(range) && Says(range, A.BlockStart(i, block))
    ensures Carries(range, AnthropicNamed(A.BlockStart(i, block)).payload)
  {
    BlockCarried(range, block);
    ThreeCarried(range, "type", Str("content_block_start"), "index", Num(i), "content_block", JObject(BlockFields(block)));
  }

  lemma BlockDeltaCarried(range: Range, i: int, delta: A.Delta)
    requires Proper(range) && Says(range, A.BlockDelta(i, delta))
    ensures Carries(range, AnthropicNamed(A.BlockDelta(i, delta)).payload)
  {
    DeltaCarried(range, delta);
    ThreeCarried(range, "type", Str("content_block_delta"), "index", Num(i), "delta", JObject(DeltaFields(delta)));
  }

  lemma BeginCarried(range: Range, id: string, model: string, tokens: int)
    requires Proper(range) && Says(range, A.MessageStart(id, model, tokens))
    ensures Carries(range, AnthropicNamed(A.MessageStart(id, model, tokens)).payload)
  {
    StartCarried(range, id, model, tokens);
    TwoCarried(range, "type", Str("message_start"), "message", JObject(MessageFields(id, model, tokens)));
  }

  lemma StopCarried(range: Range, stop: string, tokens: int)
    requires Proper(range) && Says(range, A.MessageDelta(stop, tokens))
    ensures Carries(range, AnthropicNamed(A.MessageDelta(stop, tokens)).payload)
  {
    TwoCarried(range, "stop_reason", Str(stop), "stop_sequence", JNull);
    OneCarried(range, "output_tokens", Num(tokens));
    ThreeCarried(range, "type", Str("message_delta"), "delta", JObject(map["stop_reason" := Str(stop), "stop_sequence" := JNull]),
                 "usage", JObject(map["output_tokens" := Num(tokens)]));
  }

  lemma AnthropicNamesPlain(e: A.Event)
    ensures PlainName(AnthropicName(e))
  {
  }

  /** What one Anthropic event adds to the shown texts. */
  function AnthropicAdds(got: Shown, e: A.Event): Shown {
    match e
    case BlockDelta(_, ThinkingDelta(s)) => got.(thinking := got.thinking + s)
    case BlockDelta(_, TextDelta(s)) => got.(message := got.message + s)
    case _ => got
  }

  lemma MessageStartAddsNothing(other: Json -> string, id: string, model: string, tokens: int)
    ensures FromJSON(other, JObject(MessageFields(id, model, tokens))) == None
  {
    var m := MessageFields(id, model, tokens);
    assert m["content"] == JArray([]);
    assert "choices" !in m && "response" !in m;
  }

  lemma JsTrimmed(s: string)
    requires s != "" && !JsSpace(s[0]) && !JsSpace(s[|s| - 1])
    ensures JsTrim(s) == s
  {
  }

  lemma DeltaAdds(other: Json -> string, got: Shown, i: int, d: A.Delta)
    ensures React(other, got, AnthropicNamed(A.BlockDelta(i, d))) == AnthropicAdds(got, A.BlockDelta(i, d))
  {
    JsTrimmed("thinking_delta");
    JsTrimmed("signature_delta");
    JsTrimmed("text_delta");
    JsTrimmed("input_json_delta");
    var fields := AnthropicFields(A.BlockDelta(i, d));
    assert ObjectOf(fields, "delta") == Some(DeltaFields(d));
    assert TextOf(other, DeltaFields(d), "type") == DeltaFields(d)["type"].s;
  }

  lemma StartAdds(other: Json -> string, got: Shown, e: A.Event)
    requires e.MessageStart?
    ensures React(other, got, AnthropicNamed(e)) == got
  {
    MessageStartAddsNothing(other, e.id, e.model, e.inputTokens);
    assert ObjectOf(AnthropicFields(e), "message") == Some(MessageFields(e.id, e.model, e.inputTokens));
  }

  lemma OtherNamesAddNothing(other: Json -> string, got: Shown, e: Named)
    requires e.name in ["content_block_start", "content_block_stop", "message_delta", "message_stop",
                        "response.created", "response.in_progress", "response.reasoning_summary_text.delta",
                        "response.output_item.added", "response.output_item.done", "response.content_part.added",
                        "response.content_part.done", "response.function_call_arguments.delta",
                        "response.function_call_arguments.done"]
    ensures React(other, got, e) == got
  {
  }

  lemma AnthropicReacts(other: Json -> string, got: Shown, e: A.Event)
    ensures Reacting(other)(got, AnthropicNamed(e)) == AnthropicAdds(got, e)
  {
    match e
    case MessageStart(_, _, _) => StartAdds(other, got, e);
    case BlockDelta(i, d) => DeltaAdds(other, got, i, d);
    case BlockStart(_, _) => OtherNamesAddNothing(other, got, AnthropicNamed(e));
    case BlockStop(_) => OtherNamesAddNothing(other, got, AnthropicNamed(e));
    case MessageDelta(_, _) => OtherNamesAddNothing(other, got, AnthropicNamed(e));
    case MessageStop => OtherNamesAddNothing(other, got, AnthropicNamed(e));
  }

  function AddAll(got: Shown, events: seq<A.Event>): Shown
    decreases |events|
  {
    if events == [] then got else AddAll(AnthropicAdds(got, events[0]), events[1..])
  }

  lemma {:induction false} FoldAdds(other: Json -> string, got: Shown, events: seq<A.Event>)
    ensures Fold(Reacting(other), got, AnthropicWire(events)) == AddAll(got, events)
    decreases |events|
  {
    if events != [] {
      AnthropicReacts(other, got, events[0]);
      assert AnthropicWire(events)[1..] == AnthropicWire(events[1..]);
      FoldAdds(other, AnthropicAdds(got, events[0]), events[1..]);
    }
  }

  lemma {:induction false} AddAppend(got: Shown, a: seq<A.Event>, b: seq<A.Event>)
    ensures AddAll(got, a + b) == AddAll(AddAll(got, a), b)
    decreases |a|
  {
    if a == [] {
      assert a + b == b;
    } else {
      assert (a + b)[1..] == a[1..] + b;
      AddAppend(AnthropicAdds(got, a[0]), a[1..], b);
    }
  }

  /** Events that carry no visible text. */
  lemma {:induction false} AddNothing(got: Shown, events: seq<A.Event>)
    requires forall i :: 0 <= i < |events| ==> AnthropicAdds(got, events[i]) == got
    ensures AddAll(got, events) == got
    decreases |events|
  {
    if events != [] {
      AddNothing(got, events[1..]);
    }
  }

  lemma {:induction false} AddThinking(got: Shown, i: int, chunks: seq<string>)
    ensures AddAll(got, A.ThinkingDeltas(i, chunks)) == got.(thinking := got.thinking + Concat(chunks))
    decreases |chunks|
  {
    if chunks == [] {
      assert got.thinking + "" == got.thinking;
    } else {
      assert A.ThinkingDeltas(i, chunks)[1..] == A.ThinkingDeltas(i, chunks[1..]);
      AddThinking(got.(thinking := got.thinking + chunks[0]), i, chunks[1..]);
      Assoc(got.thinking, chunks[0], Concat(chunks[1..]));
    }
  }

  lemma {:induction false} AddText(got: Shown, i: int, chunks: seq<string>)
    ensures AddAll(got, A.TextDeltas(i, chunks)) == got.(message := got.message + Concat(chunks))
    decreases |chunks|
  {
    if chunks == [] {
      assert got.message + "" == got.message;
    } else {
      assert A.TextDeltas(i, chunks)[1..] == A.TextDeltas(i, chunks[1..]);
      AddText(got.(message := got.message + chunks[0]), i, chunks[1..]);
      Assoc(got.message, chunks[0], Concat(chunks[1..]));
    }
  }

  /** What one block adds to the shown texts. */
  function PartAdds(got: Shown, p: A.Part): Shown {
    match p
    case ThinkingPart(thinking, _) => got.(thinking := got.thinking + thinking)
    case TextPart(text) => got.(message := got.message + text)
    case ToolPart(_, _, _) => got
  }

  function PartsAdd(got: Shown, parts: seq<A.Part>): Shown
    decreases |parts|
  {
    if parts == [] then got else PartsAdd(PartAdds(got, parts[0]), parts[1..])
  }

  lemma AddPart(env: A.Env, got: Shown, i: int, p: A.Part)
    requires A.Spoken(p)
    ensures AddAll(got, A.PartEvents(env, i, p)) == PartAdds(got, p)
  {
    match p
    case ThinkingPart(thinking, signature) =>
      var start := [A.BlockStart(i, A.ThinkingBlock)];
      var deltas := A.ThinkingDeltas(i, Chunks(thinking, A.CHUNK));
      var sign := if signature == "" then [] else [A.BlockDelta(i, A.SignatureDelta(signature))];
      ChunksJoin(thinking, A.CHUNK);
      AddNothing(got, start);
      AddThinking(got, i, Chunks(thinking, A.CHUNK));
      var more := PartAdds(got, p);
      AddAppend(got, start, deltas);
      AddNothing(more, sign);
      AddAppend(got, start + deltas, sign);
      AddNothing(more, [A.BlockStop(i)]);
      AddAppend(got, start + deltas + sign, [A.BlockStop(i)]);
    case TextPart(text) =>
      var start := [A.BlockStart(i, A.TextBlock)];
      var deltas := A.TextDeltas(i, Chunks(text, A.CHUNK));
      ChunksJoin(text, A.CHUNK);
      AddNothing(got, start);
      AddText(got, i, Chunks(text, A.CHUNK));
      AddAppend(got, start, deltas);
      AddNothing(PartAdds(got, p), [A.BlockStop(i)]);
      AddAppend(got, start + deltas, [A.BlockStop(i)]);
    case ToolPart(_, _, _) => AddNothing(got, A.PartEvents(env, i, p));
  }

  lemma {:induction false} AddParts(env: A.Env, got: Shown, i: int, parts: seq<A.Part>)
    requires forall k :: 0 <= k < |parts| ==> A.Spoken(parts[k])
    ensures AddAll(got, A.PartsEvents(env, i, parts)) == PartsAdd(got, parts)
    decreases |parts|
  {
    if parts != [] {
      AddPart(env, got, i, parts[0]);
      AddParts(env, PartAdds(got, parts[0]), i + 1, parts[1..]);
      AddAppend(got, A.PartEvents(env, i, parts[0]), A.PartsEvents(env, i + 1, parts[1..]));
    }
  }

  lemma {:induction false} PartsAppend(got: Shown, a: seq<A.Part>, b: seq<A.Part>)
    ensures PartsAdd(got, a + b) == PartsAdd(PartsAdd(got, a), b)
    decreases |a|
  {
    if a == [] {
      assert a + b == b;
    } else {
      assert (a + b)[1..] == a[1..] + b;
      PartsAppend(PartAdds(got, a[0]), a[1..], b);
    }
  }

  lemma {:induction false} ToolsAddNothing(got: Shown, parts: seq<A.Part>)
    requires forall i :: 0 <= i < |parts| ==> parts[i].ToolPart?
    ensures PartsAdd(got, parts) == got
    decreases |parts|
  {
    if parts != [] {
      ToolsAddNothing(got, parts[1..]);
    }
  }

  lemma SpeechAdds(env: A.Env, r: Response)
    ensures PartsAdd(Shown("", ""), A.AllParts(env, r)) == Shown(Visible(r.thinking), Visible(r.text))
  {
    var none := Shown("", "");
    var thinking, text := A.ThinkingParts(env, r), A.TextParts(r);
    var tools := A.ToolParts(env.newID, A.Streamed(env), r.toolCalls, 1);
    A.ToolPartsSendable(env.newID, A.Streamed(env), r.toolCalls, 1);
    PartsAppend(none, thinking + text, tools);
    PartsAppend(none, thinking, text);
    assert "" + r.thinking == r.thinking && "" + r.text == r.text;
    assert |thinking| <= 1 && |text| <= 1;
    assert thinking != [] ==> |thinking[1..]| == 0;
    assert text != [] ==> |text[1..]| == 0;
    ToolsAddNothing(Shown(Visible(r.thinking), Visible(r.text)), tools);
  }

  /** Text that is dropped when blank looks the same to the tester. */
  lemma VisibleShowsSame(s: string)
    requires Ascii(s)
    ensures Sanitize(Visible(s)) == Sanitize(s)
  {
    if Blank(s) {
      BlankShowsNothing(s);
      BlankMeansSpaces("");
      BlankShowsNothing("");
    }
  }

  /** For every ASCII response, the endpoint tester reads from the Anthropic
      stream exactly the response's thinking and text, up to its own
      sanitizing. */
  lemma AnthropicReadBack(codec: Codec, other: Json -> string, env: A.Env, requestedModel: string, r: Response)
    requires Faithful(codec) && Ascii(r.thinking) && Ascii(r.text)
    requires forall e :: e in A.StreamTrace(env, requestedModel, r) ==> Says(codec.range, e)
    ensures Extract(codec, other, WriteAll(codec, AnthropicWire(A.StreamTrace(env, requestedModel, r))))
            == Summarize(Shown(r.thinking, r.text))
  {
    var events := A.StreamTrace(env, requestedModel, r);
    var wire := AnthropicWire(events);
    forall i | 0 <= i < |wire| ensures PlainName(wire[i].name) && Carries(codec.range, wire[i].payload) {
      AnthropicNamesPlain(events[i]);
      AnthropicCarried(codec.range, events[i]);
    }
    FramingRoundTrip(codec, wire);
    FoldAdds(other, Shown("", ""), events);
    TraceAdds(env, requestedModel, r);
    VisibleShowsSame(r.thinking);
    VisibleShowsSame(r.text);
  }

  lemma TraceAdds(env: A.Env, requestedModel: string, r: Response)
    ensures AddAll(Shown("", ""), A.StreamTrace(env, requestedModel, r)) == Shown(Visible(r.thinking), Visible(r.text))
  {
    var none := Shown("", "");
    var parts := A.AllParts(env, r);
    var body := A.PartsEvents(env, 0, parts);
    var start := [A.MessageStart(A.MessageID(env, r), FirstNonEmpty(requestedModel, r.model), A.InputTokens(r.usage))];
    var stop := [A.MessageDelta(A.StopReason(r.stopReason, r.toolCalls != []), A.OutputTokens(r.usage)), A.MessageStop];
    A.AllPartsSpoken(env, r);
    AddNothing(none, start);
    AddAppend(none, start, body);
    AddParts(env, none, 0, parts);
    SpeechAdds(env, r);
    AddNothing(PartsAdd(none, parts), stop);
    AddAppend(none, start + body, stop);
  }

  /** So thinking and text are shown as they are outside environment blocks, trimmed;
      if nothing is left of them, nothing is shown. */
  lemma AnthropicShows(codec: Codec, other: Json -> string, env: A.Env, requestedModel: string, r: Response, thinking: string, text: string)
    requires Faithful(codec) && Ascii(r.thinking) && Ascii(r.text)
    requires forall e :: e in A.StreamTrace(env, requestedModel, r) ==> Says(codec.range, e)
    requires ShownAs(r.thinking, thinking) && ShownAs(r.text, text)
    ensures Extract(codec, other, WriteAll(codec, AnthropicWire(A.StreamTrace(env, requestedModel, r))))
            == if thinking == "" && text == "" then None else Some(Shown(thinking, text))
  {
    AnthropicReadBack(codec, other, env, requestedModel, r);
    SanitizedAsShown(r.thinking, thinking);
    SanitizedAsShown(r.text, text);
  }

  /** Without an environment block that is the trimmed thinking and the trimmed text. */
  lemma AnthropicShowsPlain(codec: Codec, other: Json -> string, env: A.Env, requestedModel: string, r: Response)
    requires Faithful(codec) && Ascii(r.thinking) && Ascii(r.text) && Lacks(r.thinking, OPENING) && Lacks(r.text, OPENING)
    requires forall e :: e in A.StreamTrace(env, requestedModel, r) ==> Says(codec.range, e)
    ensures Extract(codec, other, WriteAll(codec, AnthropicWire(A.StreamTrace(env, requestedModel, r))))
            == if Blank(r.thinking) && Blank(r.text) then None else Some(Shown(TrimSpace(r.thinking), TrimSpace(r.text)))
  {
    PlainShownAs(r.thinking);
    PlainShownAs(r.text);
    AnthropicShows(codec, other, env, requestedModel, r, TrimSpace(r.thinking), TrimSpace(r.text));
  }

  /** What is asked of the codec can be met: with this one every ASCII response is
      read back. */
  lemma SomeCodecReadsBack(other: Json -> string, env: A.Env, requestedModel: string, r: Response) returns (codec: Codec)
    requires Ascii(r.thinking) && Ascii(r.text)
    ensures Faithful(codec)
    ensures Extract(codec, other, WriteAll(codec, AnthropicWire(A.StreamTrace(env, requestedModel, r))))
            == Summarize(Shown(r.thinking, r.text))
  {
    codec := JsonText.CodecExists();
    forall e ensures Says(codec.range, e) {
    }
    AnthropicReadBack(codec, other, env, requestedModel, r);
  }

  // ---------- Responses payloads ----------

  function ResponsesName(e: R.Event): string {
    match e
    case Created => "response.created"
    case InProgress => "response.in_progress"
    case ReasoningDelta(_, _, _) => "response.reasoning_summary_text.delta"
    case ItemAdded(_, _) => "response.output_item.added"
    case PartAdded(_, _) => "response.content_part.added"
    case TextDelta(_, _, _) => "response.output_text.delta"
    case TextDone(_, _, _, _) => "response.output_text.done"
    case PartDone(_, _, _, _) => "response.content_part.done"
    case ArgumentsDelta(_, _, _) => "response.function_call_arguments.delta"
    case ArgumentsDone(_, _, _) => "response.function_call_arguments.done"
    case ItemDone(_, _) => "response.output_item.done"
    case Completed(_, _) => "response.completed"
  }

  /** What the payloads hold besides the fields the tester looks at; none of it
      is one of those fields. */
  datatype Extras = Extras(created: Fields, responseID: string, items: R.Item -> Json, response: seq<R.Item> -> Fields)

  predicate Unread(extras: Extras, output: seq<R.Item>) {
    extras.response(output).Keys !! {"reasoning_content", "reasoning", "output_text"}
  }

  function ResponsesFields(extras: Extras, e: R.Event): Fields {
    match e
    case Created => extras.created
    case InProgress => extras.created
    case ReasoningDelta(id, i, delta) => map["item_id" := Str(id), "output_index" := Num(i), "summary_index" := Num(0), "delta" := Str(delta)]
    case ItemAdded(i, item) => map["output_index" := Num(i), "item" := extras.items(item)]
    case PartAdded(id, i) => map["item_id" := Str(id), "output_index" := Num(i)]
    case TextDelta(id, i, delta) =>
      map["type" := Str("response.output_text.delta"), "response_id" := Str(extras.responseID), "item_id" := Str(id),
          "output_index" := Num(i), "content_index" := Num(0), "delta" := Str(delta)]
    case TextDone(id, i, text, reasoning) =>
      map["type" := Str("response.output_text.done"), "response_id" := Str(extras.responseID), "item_id" := Str(id),
          "output_index" := Num(i), "content_index" := Num(0), "text" := Str(text), "reasoning_content" := Str(reasoning)]
    case PartDone(id, i, text, _) => map["item_id" := Str(id), "output_index" := Num(i), "text" := Str(text)]
    case ArgumentsDelta(id, i, delta) => map["item_id" := Str(id), "output_index" := Num(i), "delta" := Str(delta)]
    case ArgumentsDone(id, i, arguments) => map["item_id" := Str(id), "output_index" := Num(i), "arguments" := Str(arguments)]
    case ItemDone(i, item) => map["output_index" := Num(i), "item" := extras.items(item)]
    case Completed(output, text) =>
      var response := if text == "" then extras.response(output) else extras.response(output)["output_text" := Str(text)];
      map["type" := Str("response.completed"), "response" := JObject(response)]
  }

  function ResponsesNamed(extras: Extras, e: R.Event): Named {
    Named(ResponsesName(e), JObject(ResponsesFields(extras, e)))
  }

  function ResponsesWire(extras: Extras, events: seq<R.Event>): seq<Named> {
    seq(|events|, i requires 0 <= i < |events| => ResponsesNamed(extras, events[i]))
  }

  /** The strings, the numbers and the unread parts of an event are carried as JSON. */
  ghost predicate SaysToo(range: Range, extras: Extras, e: R.Event) {
    match e
    case Created => Carries(range, JObject(extras.created))
    case InProgress => Carries(range, JObject(extras.created))
    case ReasoningDelta(id, i, delta) => range.text(id) && range.number(i as real) && range.number(0.0) && range.text(delta)
    case ItemAdded(i, item) => range.number(i as real) && Carries(range, extras.items(item))
    case PartAdded(id, i) => range.text(id) && range.number(i as real)
    case TextDelta(id, i, delta) =>
      range.text(extras.responseID) && range.text(id) && range.number(i as real) && range.number(0.0) && range.text(delta)
    case TextDone(id, i, text, reasoning) =>
      range.text(extras.responseID) && range.text(id) && range.number(i as real) && range.number(0.0) && range.text(text) && range.text(reasoning)
    case PartDone(id, i, text, _) => range.text(id) && range.number(i as real) && range.text(text)
    case ArgumentsDelta(id, i, delta) => range.text(id) && range.number(i as real) && range.text(delta)
    case ArgumentsDone(id, i, arguments) => range.text(id) && range.number(i as real) && range.text(arguments)
    case ItemDone(i, item) => range.number(i as real) && Carries(range, extras.items(item))
    case Completed(output, text) => Carries(range, JObject(extras.response(output))) && range.text(text)
  }

  lemma MiddleCarried(range: Range, kind: string, extras: Extras, id: string, i: int)
    requires Proper(range) && Ascii(kind) && range.text(extras.responseID) && range.text(id) && range.number(i as real) && range.number(0.0)
    ensures Carries(range, JObject(map["type" := Str(kind), "response_id" := Str(extras.responseID), "item_id" := Str(id),
                                       "output_index" := Num(i), "content_index" := Num(0)]))
  {
    ThreeCarried(range, "type", Str(kind), "response_id", Str(extras.responseID), "item_id", Str(id));
    var f := map["type" := Str(kind), "response_id" := Str(extras.responseID), "item_id" := Str(id)];
    PutCarried(range, f, "output_index", Num(i));
    PutCarried(range, f["output_index" := Num(i)], "content_index", Num(0));
  }

  lemma TextsCarried(range: Range, extras: Extras, e: R.Event)
    requires Proper(range) && SaysToo(range, extras, e) && (e.TextDelta? || e.TextDone?)
    ensures Carries(range, ResponsesNamed(extras, e).payload)
  {
    if e.TextDelta? {
      MiddleCarried(range, "response.output_text.delta", extras, e.itemId, e.index);
      PutCarried(range, map["type" := Str("response.output_text.delta"), "response_id" := Str(extras.responseID), "item_id" := Str(e.itemId),
                            "output_index" := Num(e.index), "content_index" := Num(0)], "delta", Str(e.delta));
    } else {
      MiddleCarried(range, "response.output_text.done", extras, e.itemId, e.index);
      var f := map["type" := Str("response.output_text.done"), "response_id" := Str(extras.responseID), "item_id" := Str(e.itemId),
                   "output_index" := Num(e.index), "content_index" := Num(0)];
      PutCarried(range, f, "text", Str(e.text));
      PutCarried(range, f["text" := Str(e.text)], "reasoning_content", Str(e.reasoning));
    }
  }

  lemma EndCarried(range: Range, extras: Extras, output: seq<R.Item>, text: string)
    requires Proper(range) && Carries(range, JObject(extras.response(output))) && range.text(text)
    ensures Carries(range, ResponsesNamed(extras, R.Completed(output, text)).payload)
  {
    var response := if text == "" then extras.response(output) else extras.response(output)["output_text" := Str(text)];
    PutCarried(range, extras.response(output), "output_text", Str(text));
    TwoCarried(range, "type", Str("response.completed"), "response", JObject(response));
  }

  lemma ResponsesCarried(range: Range, extras: Extras, e: R.Event)
    requires Proper(range) && SaysToo(range, extras, e)
    ensures Carries(range, ResponsesNamed(extras, e).payload)
  {
    match e
    case Created =>
    case InProgress =>
    case ItemAdded(i, item) => TwoCarried(range, "output_index", Num(i), "item", extras.items(item));
    case PartAdded(id, i) => TwoCarried(range, "item_id", Str(id), "output_index", Num(i));
    case ItemDone(i, item) => TwoCarried(range, "output_index", Num(i), "item", extras.items(item));
    case Completed(output, text) => EndCarried(range, extras, output, text);
    case _ => SpokenCarried(range, extras, e);
  }

  lemma SpokenCarried(range: Range, extras: Extras, e: R.Event)
    requires Proper(range) && SaysToo(range, extras, e)
    requires e.ReasoningDelta? || e.TextDelta? || e.TextDone? || e.PartDone? || e.ArgumentsDelta? || e.ArgumentsDone?
    ensures Carries(range, ResponsesNamed(extras, e).payload)
  {
    match e
    case ReasoningDelta(id, i, delta) =>
      ThreeCarried(range, "item_id", Str(id), "output_index", Num(i), "summary_index", Num(0));
      PutCarried(range, map["item_id" := Str(id), "output_index" := Num(i), "summary_index" := Num(0)], "delta", Str(delta));
    case PartDone(id, i, text, _) => ThreeCarried(range, "item_id", Str(id), "output_index", Num(i), "text", Str(text));
    case ArgumentsDelta(id, i, delta) => ThreeCarried(range, "item_id", Str(id), "output_index", Num(i), "delta", Str(delta));
    case ArgumentsDone(id, i, arguments) => ThreeCarried(range, "item_id", Str(id), "output_index", Num(i), "arguments", Str(arguments));
    case _ => TextsCarried(range, extras, e);
  }

  lemma ItemNamesPlain(e: R.Event)
    requires e.ItemAdded? || e.PartAdded? || e.ItemDone? || e.PartDone? || e.TextDelta? || e.TextDone?
    ensures PlainName(ResponsesName(e))
  {
  }

  lemma ArgumentNamesPlain(e: R.Event)
    requires e.ArgumentsDelta? || e.ArgumentsDone?
    ensures PlainName(ResponsesName(e))
  {
  }

  lemma OtherNamesPlain(e: R.Event)
    requires e.Created? || e.InProgress? || e.ReasoningDelta? || e.Completed?
    ensures PlainName(ResponsesName(e))
  {
  }

  lemma ResponsesNamesPlain(e: R.Event)
    ensures PlainName(ResponsesName(e))
  {
    if e.ArgumentsDelta? || e.ArgumentsDone? {
      ArgumentNamesPlain(e);
    } else if e.Created? || e.InProgress? || e.ReasoningDelta? || e.Completed? {
      OtherNamesPlain(e);
    } else {
      ItemNamesPlain(e);
    }
  }

  /** What one Responses event does to the shown texts. */
  function ResponsesAdds(got: Shown, e: R.Event): Shown {
    match e
    case TextDelta(_, _, delta) => got.(message := got.message + delta)
    case TextDone(_, _, text, reasoning) => Shown(got.thinking + reasoning, if got.message == "" then text else got.message)
    case Completed(_, text) => got.(message := if got.message == "" then text else got.message)
    case _ => got
  }

  lemma TextDeltaAdds(extras: Extras, other: Json -> string, got: Shown, e: R.Event)
    requires e.TextDelta?
    ensures React(other, got, ResponsesNamed(extras, e)) == ResponsesAdds(got, e)
  {
    var fields := ResponsesFields(extras, e);
    assert "reasoning_content" !in fields && "reasoning" !in fields;
    assert got.thinking + "" == got.thinking;
  }

  lemma TextDoneAdds(extras: Extras, other: Json -> string, got: Shown, e: R.Event)
    requires e.TextDone?
    ensures React(other, got, ResponsesNamed(extras, e)) == ResponsesAdds(got, e)
  {
    var fields := ResponsesFields(extras, e);
    assert fields["reasoning_content"] == Str(e.reasoning) && fields["text"] == Str(e.text);
  }

  lemma CompletedAdds(extras: Extras, other: Json -> string, got: Shown, e: R.Event)
    requires e.Completed? && Unread(extras, e.output)
    ensures React(other, got, ResponsesNamed(extras, e)) == ResponsesAdds(got, e)
  {
    var response := ObjectOf(ResponsesFields(extras, e), "response").value;
    assert "output_text" !in extras.response(e.output) && "reasoning" !in extras.response(e.output) by {
      assert "output_text" in {"reasoning_content", "reasoning", "output_text"};
      assert "reasoning" in {"reasoning_content", "reasoning", "output_text"};
    }
    assert "reasoning_content" !in extras.response(e.output) by {
      assert "reasoning_content" in {"reasoning_content", "reasoning", "output_text"};
    }
    assert Reasoning(response) == "";
    assert TextOf(other, response, "output_text") == e.outputText;
  }

  lemma ResponsesReacts(extras: Extras, other: Json -> string, got: Shown, e: R.Event)
    requires e.Completed? ==> Unread(extras, e.output)
    ensures Reacting(other)(got, ResponsesNamed(extras, e)) == ResponsesAdds(got, e)
  {
    match e
    case TextDelta(_, _, _) => TextDeltaAdds(extras, other, got, e);
    case TextDone(_, _, _, _) => TextDoneAdds(extras, other, got, e);
    case Completed(_, _) => CompletedAdds(extras, other, got, e);
    case _ => OtherNamesAddNothing(other, got, ResponsesNamed(extras, e));
  }

  function RespondAll(got: Shown, events: seq<R.Event>): Shown
    decreases |events|
  {
    if events == [] then got else RespondAll(ResponsesAdds(got, events[0]), events[1..])
  }

  lemma {:induction false} FoldResponds(extras: Extras, other: Json -> string, got: Shown, events: seq<R.Event>)
    requires forall i :: 0 <= i < |events| ==> events[i].Completed? ==> Unread(extras, events[i].output)
    ensures Fold(Reacting(other), got, ResponsesWire(extras, events)) == RespondAll(got, events)
    decreases |events|
  {
    if events != [] {
      ResponsesReacts(extras, other, got, events[0]);
      assert ResponsesWire(extras, events)[1..] == ResponsesWire(extras, events[1..]);
      FoldResponds(extras, other, ResponsesAdds(got, events[0]), events[1..]);
    }
  }

  lemma {:induction false} RespondAppend(got: Shown, a: seq<R.Event>, b: seq<R.Event>)
    ensures RespondAll(got, a + b) == RespondAll(RespondAll(got, a), b)
    decreases |a|
  {
    if a == [] {
      assert a + b == b;
    } else {
      assert (a + b)[1..] == a[1..] + b;
      RespondAppend(ResponsesAdds(got, a[0]), a[1..], b);
    }
  }

  lemma {:induction false} RespondNothing(got: Shown, events: seq<R.Event>)
    requires forall i :: 0 <= i < |events| ==> ResponsesAdds(got, events[i]) == got
    ensures RespondAll(got, events) == got
    decreases |events|
  {
    if events != [] {
      RespondNothing(got, events[1..]);
    }
  }

  /** What one call of a stream method does to the shown texts, wherever the
      stream stands. */
  function OpAdds(got: Shown, op: R.Op): Shown {
    match op
    case TextPiece(delta) => got.(message := got.message + delta)
    case Close(text, reasoning) => Shown(got.thinking + reasoning, if got.message == "" then text else got.message)
    case _ => got
  }

  lemma EnsureAddsNothing(supply: nat -> string, p: R.Position, got: Shown)
    ensures RespondAll(got, R.Ensure(supply, p).events) == got
  {
    RespondNothing(got, R.Ensure(supply, p).events);
  }

  lemma OpReacts(supply: nat -> string, p: R.Position, got: Shown, op: R.Op)
    ensures RespondAll(got, R.Perform(supply, p, op).events) == OpAdds(got, op)
  {
    match op
    case Start => RespondNothing(got, R.Perform(supply, p, op).events);
    case Reasoning(_) => RespondNothing(got, R.Perform(supply, p, op).events);
    case Call(_) => RespondNothing(got, R.Perform(supply, p, op).events);
    case TextPiece(delta) => TextReacts(supply, p, got, delta);
    case Close(text, reasoning) =>
      var o := R.Ensure(supply, p);
      EnsureAddsNothing(supply, p, got);
      RespondAppend(got, o.events, R.CloseEvents(o.pos, text, reasoning));
      var events := R.CloseEvents(o.pos, text, reasoning);
      RespondNothing(OpAdds(got, op), events[1..]);
  }

  lemma OpIncomplete(supply: nat -> string, p: R.Position, op: R.Op)
    ensures forall i :: 0 <= i < |R.Perform(supply, p, op).events| ==> !R.Perform(supply, p, op).events[i].Completed?
  {
  }

  lemma TextReacts(supply: nat -> string, p: R.Position, got: Shown, delta: string)
    ensures RespondAll(got, R.Perform(supply, p, R.TextPiece(delta)).events) == got.(message := got.message + delta)
  {
    if delta == "" {
      assert got.message + "" == got.message;
    } else {
      var o := R.Ensure(supply, p);
      var last := [R.TextDelta(o.pos.messageItem, o.pos.messageIndex, delta)];
      EnsureAddsNothing(supply, p, got);
      RespondAppend(got, o.events, last);
      assert |last[1..]| == 0;
    }
  }

  function OpsAdd(got: Shown, ops: seq<R.Op>): Shown
    decreases |ops|
  {
    if ops == [] then got else OpsAdd(OpAdds(got, ops[0]), ops[1..])
  }

  lemma {:induction false} OpsReact(supply: nat -> string, p: R.Position, got: Shown, ops: seq<R.Op>)
    ensures var events := R.PerformAll(supply, p, ops).events;
            RespondAll(got, events) == OpsAdd(got, ops) && forall i :: 0 <= i < |events| ==> !events[i].Completed?
    decreases |ops|
  {
    if ops != [] {
      var one := R.Perform(supply, p, ops[0]);
      OpReacts(supply, p, got, ops[0]);
      OpIncomplete(supply, p, ops[0]);
      OpsReact(supply, one.pos, OpAdds(got, ops[0]), ops[1..]);
      RespondAppend(got, one.events, R.PerformAll(supply, one.pos, ops[1..]).events);
    }
  }

  lemma {:induction false} OpsAppend(got: Shown, a: seq<R.Op>, b: seq<R.Op>)
    ensures OpsAdd(got, a + b) == OpsAdd(OpsAdd(got, a), b)
    decreases |a|
  {
    if a == [] {
      assert a + b == b;
    } else {
      assert (a + b)[1..] == a[1..] + b;
      OpsAppend(OpAdds(got, a[0]), a[1..], b);
    }
  }

  lemma {:induction false} ReasoningOpsAdd(got: Shown, chunks: seq<string>)
    ensures OpsAdd(got, R.ReasoningOps(chunks)) == got
    decreases |chunks|
  {
    if chunks != [] {
      assert R.ReasoningOps(chunks)[1..] == R.ReasoningOps(chunks[1..]);
      ReasoningOpsAdd(got, chunks[1..]);
    }
  }

  lemma {:induction false} TextOpsAdd(got: Shown, chunks: seq<string>)
    ensures OpsAdd(got, R.TextOps(chunks)) == got.(message := got.message + Concat(chunks))
    decreases |chunks|
  {
    if chunks == [] {
      assert got.message + "" == got.message;
    } else {
      assert R.TextOps(chunks)[1..] == R.TextOps(chunks[1..]);
      TextOpsAdd(got.(message := got.message + chunks[0]), chunks[1..]);
      Assoc(got.message, chunks[0], Concat(chunks[1..]));
    }
  }

  lemma {:induction false} CallOpsAdd(got: Shown, calls: seq<ToolCall>)
    ensures OpsAdd(got, R.CallOps(calls)) == got
    decreases |calls|
  {
    if calls != [] {
      assert R.CallOps(calls)[1..] == R.CallOps(calls[1..]);
      CallOpsAdd(got, calls[1..]);
    }
  }

  lemma MessageOpsAdd(r: Response)
    requires R.HasMessage(r)
    ensures OpsAdd(Shown("", ""), R.MessageOps(r)) == Shown(r.thinking, r.text)
  {
    var none := Shown("", "");
    var thoughts, texts := Chunks(r.thinking, R.CHUNK), Chunks(r.text, R.CHUNK);
    var close := [R.Close(r.text, r.thinking)];
    OpsAppend(none, R.ReasoningOps(thoughts), R.TextOps(texts) + close);
    ReasoningOpsAdd(none, thoughts);
    OpsAppend(none, R.TextOps(texts), close);
    TextOpsAdd(none, texts);
    ChunksJoin(r.text, R.CHUNK);
    assert |close[1..]| == 0;
    assert "" + Concat(texts) == Concat(texts) && "" + r.thinking == r.thinking;
  }

  /** What the tester gathers from a Responses stream before sanitizing. */
  lemma ResponsesGathers(supply: nat -> string, r: Response, answerIds: nat -> string)
    ensures RespondAll(Shown("", ""), R.StreamTrace(supply, r, answerIds))
            == Shown(if R.HasMessage(r) then r.thinking else "", r.text)
    ensures forall i :: 0 <= i < |R.StreamTrace(supply, r, answerIds)| - 1 ==> !R.StreamTrace(supply, r, answerIds)[i].Completed?
  {
    var none := Shown("", "");
    var events := R.PerformAll(supply, R.Initial, R.Ops(r)).events;
    var last := [R.Completed(R.Output(r, answerIds), r.text)];
    OpsReact(supply, R.Initial, none, R.Ops(r));
    RespondAppend(none, events, last);
    assert |last[1..]| == 0;
    var rest := R.MessageOps(r) + R.CallOps(r.toolCalls);
    assert R.Ops(r)[1..] == rest;
    OpsAppend(none, R.MessageOps(r), R.CallOps(r.toolCalls));
    if R.HasMessage(r) {
      MessageOpsAdd(r);
    }
    CallOpsAdd(OpsAdd(none, R.MessageOps(r)), r.toolCalls);
  }

  /** For every ASCII response, the endpoint tester reads from the Responses
      stream exactly the response's thinking and text, up to its own
      sanitizing. */
  lemma ResponsesReadBack(codec: Codec, extras: Extras, other: Json -> string, supply: nat -> string,
                          r: Response, answerIds: nat -> string)
    requires Faithful(codec) && Ascii(r.thinking) && Ascii(r.text)
    requires Unread(extras, R.Output(r, answerIds))
    requires forall e :: e in R.StreamTrace(supply, r, answerIds) ==> SaysToo(codec.range, extras, e)
    ensures Extract(codec, other, WriteAll(codec, ResponsesWire(extras, R.StreamTrace(supply, r, answerIds))))
            == Summarize(Shown(r.thinking, r.text))
  {
    var events := R.StreamTrace(supply, r, answerIds);
    var wire := ResponsesWire(extras, events);
    forall i | 0 <= i < |wire| ensures PlainName(wire[i].name) && Carries(codec.range, wire[i].payload) {
      ResponsesNamesPlain(events[i]);
      ResponsesCarried(codec.range, extras, events[i]);
    }
    FramingRoundTrip(codec, wire);
    ResponsesGathers(supply, r, answerIds);
    FoldResponds(extras, other, Shown("", ""), events);
    if !R.HasMessage(r) {
      BlankShowsNothing(r.thinking);
      BlankMeansSpaces("");
      BlankShowsNothing("");
    }
  }

  /** So the Responses stream shows the same as the Anthropic one. */
  lemma ResponsesShows(codec: Codec, extras: Extras, other: Json -> string, supply: nat -> string,
                       r: Response, answerIds: nat -> string, thinking: string, text: string)
    requires Faithful(codec) && Ascii(r.thinking) && Ascii(r.text)
    requires Unread(extras, R.Output(r, answerIds))
    requires forall e :: e in R.StreamTrace(supply, r, answerIds) ==> SaysToo(codec.range, extras, e)
    requires ShownAs(r.thinking, thinking) && ShownAs(r.text, text)
    ensures Extract(codec, other, WriteAll(codec, ResponsesWire(extras, R.StreamTrace(supply, r, answerIds))))
            == if thinking == "" && text == "" then None else Some(Shown(thinking, text))
  {
    ResponsesReadBack(codec, extras, other, supply, r, answerIds);
    SanitizedAsShown(r.thinking, thinking);
    SanitizedAsShown(r.text, text);
  }

  lemma ResponsesShowsPlain(codec: Codec, extras: Extras, other: Json -> string, supply: nat -> string,
                            r: Response, answerIds: nat -> string)
    requires Faithful(codec) && Ascii(r.thinking) && Ascii(r.text) && Lacks(r.thinking, OPENING) && Lacks(r.text, OPENING)
    requires Unread(extras, R.Output(r, answerIds))
    requires forall e :: e in R.StreamTrace(supply, r, answerIds) ==> SaysToo(codec.range, extras, e)
    ensures Extract(codec, other, WriteAll(codec, ResponsesWire(extras, R.StreamTrace(supply, r, answerIds))))
            == if Blank(r.thinking) && Blank(r.text) then None else Some(Shown(TrimSpace(r.thinking), TrimSpace(r.text)))
  {
    PlainShownAs(r.thinking);
    PlainShownAs(r.text);
    ResponsesShows(codec, extras, other, supply, r, answerIds, TrimSpace(r.thinking), TrimSpace(r.text));
  }
}
