/** The incremental buffer parser of the Kiro stream: it looks for the earliest
    of eight patterns, cuts out the JSON object that starts there and applies
    it, for as long as a whole object is buffered. */
module KiroParser {
  import opened Text
  import opened BraceScan
  import opened PatternSplitter
  import opened JsonValues

  // ---------- patterns ----------

  datatype Kind = Content | Thinking | ToolStart | ToolInput | ToolStop | UsageReport | Followup | ContextUsage

  const Kinds: seq<Kind> := [Content, Thinking, ToolStart, ToolInput, ToolStop, UsageReport, Followup, ContextUsage]

  const Patterns: seq<Bytes> := [
    "{\"content\":", "{\"thinking\":", "{\"name\":", "{\"input\":",
    "{\"stop\":", "{\"usage\":", "{\"followupPrompt\":", "{\"contextUsagePercentage\":"]

  /** The eight patterns satisfy what the splitter relies on. */
  lemma PatternsShaped()
    ensures Shaped(Patterns)
  {
    forall w | 0 <= w < |Patterns| ensures |Patterns[w]| > 0 && Patterns[w][0] == '{' && '{' !in Patterns[w][1..] {
      PatternFront(w);
    }
    forall v, w | 0 <= v < |Patterns| && 0 <= w < |Patterns| && v != w ensures !(Patterns[v] <= Patterns[w]) {
      PatternBytes(v);
      PatternBytes(w);
    }
  }

  lemma PatternFront(w: nat)
    requires w < |Patterns|
    ensures |Patterns[w]| > 0 && Patterns[w][0] == '{' && '{' !in Patterns[w][1..]
  {
    if w == 0 { OneBrace("{\"content\":"); }
    else if w == 1 { OneBrace("{\"thinking\":"); }
    else if w == 2 { OneBrace("{\"name\":"); }
    else if w == 3 { OneBrace("{\"input\":"); }
    else if w == 4 { OneBrace("{\"stop\":"); }
    else if w == 5 { OneBrace("{\"usage\":"); }
    else if w == 6 { OneBrace("{\"followupPrompt\":"); }
    else { OneBrace("{\"contextUsagePercentage\":"); }
  }

  lemma OneBrace(p: Bytes)
    requires |p| > 0 && forall i :: 1 <= i < |p| ==> p[i] != '{'
    ensures '{' !in p[1..]
  {
  }

  /** Any two patterns differ at byte 2 or at byte 7. */
  lemma PatternBytes(w: nat)
    requires w < |Patterns|
    ensures |Patterns[w]| >= 8
    ensures Patterns[w][2] == "ctnisufc"[w] && (w == 0 ==> Patterns[w][7] == 'n') && (w == 7 ==> Patterns[w][7] == 'x')
  {
  }

  // ---------- events ----------

  /** What the parser takes from outside: the JSON library and the supply of
      fresh identifiers. */
  datatype Env = Env(lib: Library, freshCallId: nat -> string)

  datatype PendingCall = PendingCall(id: string, name: string, arguments: string)
  datatype ToolUse = ToolUse(id: string, name: string, input: Fields)
  datatype Usage = Usage(inputTokens: int, outputTokens: int, totalTokens: int)

  /** Text parts and the newest of them. */
  datatype Speech = Speech(parts: seq<string>, last: string)

  datatype Tools = Tools(current: Option<PendingCall>, calls: seq<ToolUse>, issued: nat)

  /** Everything the parser has collected; only the byte buffer is kept apart. */
  datatype Collected = Collected(content: Speech, thinking: Speech, tools: Tools,
                                 usage: Usage, gotUsage: bool, gotContextUsage: bool)

  const Nothing := Collected(Speech([], ""), Speech([], ""), Tools(None, [], 0), Usage(0, 0, 0), false, false)

  function StringField(data: Fields, key: string): string {
    if key in data && data[key].JString? then data[key].s else ""
  }

  predicate TrueField(data: Fields, key: string) {
    key in data && data[key].JBool? && data[key].b
  }

  function NormalizeToolInput(env: Env, data: Fields): string {
    if "input" !in data || data["input"].JNull? then ""
    else if data["input"].JString? then data["input"].s
    else
      var encoded := env.lib.marshal(data["input"]);
      if encoded == "null" then "" else encoded
  }

  function MarshalComparable(env: Env, input: Fields): string {
    if input == map[] then "{}" else env.lib.marshal(JObject(input))
  }

  /** int(float64): truncation toward zero. */
  function Truncate(x: real): int {
    if x >= 0.0 then x.Floor else -((-x).Floor)
  }

  function NumberField(data: Fields, key: string, alternative: string): int {
    if key in data && data[key].JNumber? then Truncate(data[key].n)
    else if alternative in data && data[alternative].JNumber? then Truncate(data[alternative].n)
    else 0
  }

  function Max(a: int, b: int): int { if a > b then a else b }

  /** The tool use a pending call turns into. */
  function Completed(env: Env, call: PendingCall): ToolUse {
    var trimmed := TrimSpace(call.arguments);
    var args := if trimmed == "" then "{}" else trimmed;
    var input := match env.lib.unmarshal(args) case Some(fields) => fields case None => map[];
    ToolUse(TrimSpace(call.id), TrimSpace(call.name), input)
  }

  predicate SameCall(env: Env, a: ToolUse, b: ToolUse) {
    TrimSpace(a.name) == TrimSpace(b.name) && MarshalComparable(env, a.input) == MarshalComparable(env, b.input)
  }

  /** finalizeToolCall: a call equal in name and input to an earlier one is dropped. */
  function Finalize(env: Env, t: Tools): Tools {
    match t.current
    case None => t
    case Some(call) =>
      var toolUse := Completed(env, call);
      if exists i :: 0 <= i < |t.calls| && SameCall(env, t.calls[i], toolUse)
      then t.(current := None)
      else t.(current := None, calls := t.calls + [toolUse])
  }

  function MergeUsage(u: Usage, m: Fields): Usage {
    Usage(Max(u.inputTokens, NumberField(m, "inputTokens", "input_tokens")),
          Max(u.outputTokens, NumberField(m, "outputTokens", "output_tokens")),
          Max(u.totalTokens, NumberField(m, "totalTokens", "total_tokens")))
  }

  function Open(env: Env, t: Tools, data: Fields): Tools {
    var given := StringField(data, "toolUseId");
    var id := if given == "" then env.freshCallId(t.issued) else given;
    Tools(Some(PendingCall(id, StringField(data, "name"), NormalizeToolInput(env, data))),
          t.calls, if given == "" then t.issued + 1 else t.issued)
  }

  function StartTool(env: Env, t: Tools, data: Fields): Tools {
    var begun := Open(env, Finalize(env, t), data);
    if TrueField(data, "stop") then Finalize(env, begun) else begun
  }

  function StopTool(env: Env, t: Tools, data: Fields): Tools {
    if TrueField(data, "stop") then Finalize(env, t) else t
  }

  function AddInput(env: Env, t: Tools, data: Fields): Tools {
    match t.current
    case None => t
    case Some(call) => t.(current := Some(call.(arguments := TrimSpace(call.arguments) + NormalizeToolInput(env, data))))
  }

  function Say(s: Speech, text: string): Speech {
    if text == "" || text == s.last then s else Speech(s.parts + [text], text)
  }

  /** processEvent. */
  function Process(env: Env, c: Collected, kind: Kind, data: Fields): Collected {
    match kind
    case Content => if "followupPrompt" in data then c else c.(content := Say(c.content, StringField(data, "content")))
    case Thinking => c.(thinking := Say(c.thinking, StringField(data, "thinking")))
    case ToolStart => c.(tools := StartTool(env, c.tools, data))
    case ToolInput => c.(tools := AddInput(env, c.tools, data))
    case ToolStop => c.(tools := StopTool(env, c.tools, data))
    case UsageReport =>
      c.(gotUsage := true,
         usage := if "usage" in data && data["usage"].JObject? then MergeUsage(c.usage, data["usage"].fields) else c.usage)
    case Followup => c
    case ContextUsage => c.(gotContextUsage := true)
  }

  /** An object cut from the buffer; one that does not decode is skipped. */
  function Apply(env: Env, c: Collected, kind: Kind, text: Bytes): Collected {
    match env.lib.unmarshal(text)
    case None => c
    case Some(data) => Process(env, c, kind, data)
  }

  function Handler(env: Env): (Collected, nat, Bytes) -> Collected {
    (c: Collected, which: nat, text: Bytes) => if which < |Kinds| then Apply(env, c, Kinds[which], text) else c
  }

  // ---------- what the stream means ----------

  type ParserView = State<Collected>

  const Start: ParserView := State(Nothing, [])

  function FeedParser(env: Env, s: ParserView, chunk: Bytes): ParserView {
    Feed(Patterns, Handler(env), s, chunk)
  }

  function FeedChunks(env: Env, s: ParserView, chunks: seq<Bytes>): ParserView {
    FeedAll(Patterns, Handler(env), s, chunks)
  }

  /** Chunk independence: events, tool calls, text parts, usage and leftover
      bytes do not depend on how the stream was cut. */
  lemma ChunkIndependence(env: Env, s: ParserView, chunks: seq<Bytes>, other: seq<Bytes>)
    requires Settled(Patterns, s) && Concat(chunks) == Concat(other)
    ensures FeedChunks(env, s, chunks) == FeedChunks(env, s, other)
    ensures Settled(Patterns, FeedChunks(env, s, chunks))
  {
    PatternsShaped();
    FeedAllAtOnce(Patterns, Handler(env), s, chunks);
    FeedAllAtOnce(Patterns, Handler(env), s, other);
    DrainSettles(Patterns, Handler(env), State(s.got, s.buffer + Concat(chunks)));
  }

  /** The meaning of a list of events, without any buffer. */
  function ApplyAll(env: Env, c: Collected, events: seq<Event>): Collected
    requires AllValid(Patterns, events)
    decreases |events|
  {
    if events == [] then c
    else ApplyAll(env, Apply(env, c, Kinds[events[0].which], Render(events[0].value)), events[1..])
  }

  lemma {:induction false} HandleAllApplies(env: Env, c: Collected, events: seq<Event>)
    requires AllValid(Patterns, events)
    ensures HandleAll(Handler(env), c, events) == ApplyAll(env, c, events)
    decreases |events|
  {
    if events != [] {
      assert Valid(Patterns, events[0]);
      HandleAllApplies(env, Apply(env, c, Kinds[events[0].which], Render(events[0].value)), events[1..]);
    }
  }

  /** The parser inverts the printer: for every list of well-formed events, cut
      anywhere, each event is applied once, in order, and nothing is left over. */
  lemma EventsRoundTrip(env: Env, events: seq<Event>, chunks: seq<Bytes>)
    requires AllValid(Patterns, events) && Concat(chunks) == Texts(events)
    ensures FeedChunks(env, Start, chunks) == State(ApplyAll(env, Nothing, events), [])
  {
    PatternsShaped();
    EmptySettled(Patterns);
    FeedAllAtOnce(Patterns, Handler(env), Start, chunks);
    DrainEvents(Patterns, Handler(env), Nothing, events);
    HandleAllApplies(env, Nothing, events);
    assert [] + Texts(events) == Texts(events);
  }

  // ---------- the parser object ----------

  class ParserState {
    const env: Env
    var buffer: Bytes
    var lastContent: string
    var lastThinking: string
    var currentToolCall: Option<PendingCall>
    var toolCalls: seq<ToolUse>
    var usage: Usage
    var textParts: seq<string>
    var thinkingParts: seq<string>
    var gotUsage: bool
    var gotContextUsage: bool
    var issued: nat

    function ToolsView(): Tools
      reads this
    {
      Tools(currentToolCall, toolCalls, issued)
    }

    function View(): ParserView
      reads this
    {
      State(Collected(Speech(textParts, lastContent), Speech(thinkingParts, lastThinking), ToolsView(),
                      usage, gotUsage, gotContextUsage), buffer)
    }

    constructor (env: Env)
      ensures View() == Start && this.env == env
    {
      this.env := env;
      buffer, lastContent, lastThinking := [], "", "";
      currentToolCall, toolCalls, usage := None, [], Usage(0, 0, 0);
      textParts, thinkingParts, gotUsage, gotContextUsage, issued := [], [], false, false, 0;
    }

    /** Append the chunk, then process whole objects until none is left. */
    method FeedChunk(chunk: Bytes)
      modifies this
      ensures View() == FeedParser(env, old(View()), chunk)
    {
      buffer := buffer + chunk;
      ghost var loaded := View();
      while true
        invariant Drain(Patterns, Handler(env), View()) == Drain(Patterns, Handler(env), loaded)
        decreases |buffer|
      {
        var cut := NextCut(Patterns, buffer);
        if cut.None? {
          break;
        }
        TakeEvent(cut.value);
      }
    }

    /** Cut one object out of the buffer and process it if it decodes. */
    method TakeEvent(cut: Cut)
      requires cut.pos <= cut.end < |buffer| && cut.which < |Kinds|
      modifies this
      ensures View() == AfterCut(Handler(env), old(View()), cut)
    {
      var jsonStr := buffer[cut.pos..cut.end + 1];
      buffer := buffer[cut.end + 1..];
      var data := env.lib.unmarshal(jsonStr);
      if data.Some? {
        ProcessEvent(Kinds[cut.which], data.value);
      }
    }

    method ProcessEvent(kind: Kind, data: Fields)
      modifies this
      ensures View() == State(Process(env, old(View().got), kind, data), old(buffer))
    {
      match kind {
        case Content =>
          var content := StringField(data, "content");
          if "followupPrompt" in data || content == "" || content == lastContent {
            return;
          }
          lastContent := content;
          textParts := textParts + [content];
        case Thinking =>
          var thinking := StringField(data, "thinking");
          if thinking == "" || thinking == lastThinking {
            return;
          }
          lastThinking := thinking;
          thinkingParts := thinkingParts + [thinking];
        case ToolStart =>
          FinalizeToolCall();
          StartToolCall(data);
        case ToolInput =>
          if currentToolCall.Some? {
            var call := currentToolCall.value;
            currentToolCall := Some(call.(arguments := TrimSpace(call.arguments) + NormalizeToolInput(env, data)));
          }
        case ToolStop =>
          if TrueField(data, "stop") {
            FinalizeToolCall();
          }
        case UsageReport =>
          gotUsage := true;
          if "usage" in data && data["usage"].JObject? {
            usage := MergeUsage(usage, data["usage"].fields);
          }
        case Followup =>
        case ContextUsage =>
          gotContextUsage := true;
      }
    }

    method StartToolCall(data: Fields)
      modifies this`currentToolCall, this`toolCalls, this`issued
      ensures ToolsView() == (var begun := Open(env, old(ToolsView()), data);
                              if TrueField(data, "stop") then Finalize(env, begun) else begun)
    {
      var toolId := StringField(data, "toolUseId");
      if toolId == "" {
        toolId := env.freshCallId(issued);
        issued := issued + 1;
      }
      currentToolCall := Some(PendingCall(toolId, StringField(data, "name"), NormalizeToolInput(env, data)));
      if TrueField(data, "stop") {
        FinalizeToolCall();
      }
    }

    method FinalizeToolCall()
      modifies this`currentToolCall, this`toolCalls
      ensures ToolsView() == Finalize(env, old(ToolsView()))
    {
      if currentToolCall.None? {
        return;
      }
      var toolUse := Completed(env, currentToolCall.value);
      var i := 0;
      while i < |toolCalls|
        invariant 0 <= i <= |toolCalls|
        invariant ToolsView() == old(ToolsView())
        invariant forall j :: 0 <= j < i ==> !SameCall(env, toolCalls[j], toolUse)
      {
        if SameCall(env, toolCalls[i], toolUse) {
          currentToolCall := None;
          return;
        }
        i := i + 1;
      }
      toolCalls := toolCalls + [toolUse];
      currentToolCall := None;
    }
  }
}
