/** What an Anthropic message says of the response it was made from: which part
    stands where, the stop reason and the token counts. */
module AnthropicAnswer {
  import opened Text
  import opened JsonValues
  import opened Models
  import opened AnthropicStream
  import opened Layout

  /** The object an argument text stands for; empty if there is none. */
  function ObjectIn(lib: Library, arguments: string, trims: bool): Fields {
    if Blank(arguments) then map[]
    else match lib.unmarshal(if trims then TrimSpace(arguments) else arguments) case None => map[] case Some(fields) => fields
  }

  predicate DeliversCall(part: Part, call: ToolCall, freshID: string, arguments: Fields) {
    && part.ToolPart?
    && part.name == TrimSpace(call.name)
    && part.id == (if Blank(call.id) then "toolu_" + freshID else TrimSpace(call.id))
    && part.input == RemapToolCallArgs(call.name, arguments)
  }

  /** The call at k, if it has a name, at its place behind `spoken` other parts. */
  predicate DeliversAt(lib: Library, trims: bool, supply: nat -> string, used: nat, calls: seq<ToolCall>, spoken: nat, content: seq<Part>, k: nat)
    requires k < |calls|
  {
    var at := spoken + Count(HasName(), calls, k);
    !Blank(calls[k].name) ==>
      && at < |content|
      && DeliversCall(content[at], calls[k], supply(used + Count(LacksID(), calls, k)), ObjectIn(lib, calls[k].arguments, trims))
  }

  /** All named calls, in order, and nothing more. */
  predicate DeliversCalls(lib: Library, trims: bool, supply: nat -> string, used: nat, calls: seq<ToolCall>, spoken: nat, content: seq<Part>) {
    && |content| == spoken + Count(HasName(), calls, |calls|)
    && forall k :: 0 <= k < |calls| ==> DeliversAt(lib, trims, supply, used, calls, spoken, content, k)
  }

  /** Visible thinking comes first and is signed, visible text comes next. */
  predicate DeliversSpeech(digest: string -> string, r: Response, spoken: nat, content: seq<Part>) {
    && spoken == (if Blank(r.thinking) then 0 else 1) + (if Blank(r.text) then 0 else 1) && spoken <= |content|
    && (!Blank(r.thinking) ==>
          content[0] == ThinkingPart(r.thinking, if Blank(r.thinkingSignature) then "sig_" + digest(TrimSpace(r.thinking)) else TrimSpace(r.thinkingSignature)))
    && (!Blank(r.text) ==> content[spoken - 1] == TextPart(r.text))
  }

  /** Stop reason and token counts. */
  predicate DeliversEnd(r: Response, m: Message) {
    var reason := TrimSpace(r.stopReason);
    && (m.stopReason == "tool_use" <==> r.toolCalls != [] || reason == "tool_calls" || reason == "tool_use")
    && (r.toolCalls == [] && (Blank(r.stopReason) || reason == "stop") ==> m.stopReason == "end_turn")
    && (m.stopReason in ["tool_use", "end_turn"] || m.stopReason == reason)
    && (m.stopReason == "end_turn" ==> Blank(r.stopReason) || reason == "stop" || reason == "end_turn")
    && m.inputTokens == (if r.usage.inputTokens <= 0 then r.usage.promptTokens else r.usage.inputTokens)
    && m.outputTokens == (if r.usage.outputTokens <= 0 then r.usage.completionTokens else r.usage.outputTokens)
  }

  ghost predicate Delivers(env: Env, r: Response, trims: bool, supply: nat -> string, used: nat, m: Message) {
    && DeliversEnd(r, m)
    && exists spoken: nat ::
         DeliversSpeech(env.digest, r, spoken, m.content) && DeliversCalls(env.lib, trims, supply, used, r.toolCalls, spoken, m.content)
  }

  // ---------- the message delivers the response ----------

  function Becomes(supply: nat -> string, input: ToolCall -> Fields): (ToolCall, nat) -> seq<Part> {
    (call: ToolCall, used: nat) => ToolPartOf(supply, input, call, used)
  }

  lemma FreshIdsTaken(call: ToolCall)
    ensures FreshIds(call) == One(LacksID()(call))
  {
  }

  lemma {:induction false} ToolPartsLaidOut(supply: nat -> string, input: ToolCall -> Fields, calls: seq<ToolCall>, used: nat)
    ensures ToolParts(supply, input, calls, used) == LaidOut(Becomes(supply, input), LacksID(), calls, used)
    decreases |calls|
  {
    if calls != [] {
      var next := used + FreshIds(calls[0]);
      ToolPartsCons(supply, input, calls, used);
      ToolPartsLaidOut(supply, input, calls[1..], next);
      FreshIdsTaken(calls[0]);
      LaidOutCons(Becomes(supply, input), LacksID(), calls, used, next, ToolParts(supply, input, calls[1..], next));
    }
  }

  /** The part a call becomes. */
  function PartFor(call: ToolCall, freshID: string, input: Fields): Part {
    ToolPart(if Blank(call.id) then "toolu_" + freshID else TrimSpace(call.id), TrimSpace(call.name), input)
  }

  lemma PartDelivers(lib: Library, trims: bool, call: ToolCall, freshID: string, input: Fields)
    requires input == RemapToolCallArgs(call.name, ObjectIn(lib, call.arguments, trims))
    ensures DeliversCall(PartFor(call, freshID, input), call, freshID, ObjectIn(lib, call.arguments, trims))
  {
  }

  lemma CallDelivered(lib: Library, trims: bool, supply: nat -> string, input: ToolCall -> Fields, used: nat, calls: seq<ToolCall>, front: seq<Part>,
                      k: nat)
    requires k < |calls| && !Blank(calls[k].name)
    requires input(calls[k]) == RemapToolCallArgs(calls[k].name, ObjectIn(lib, calls[k].arguments, trims))
    ensures DeliversAt(lib, trims, supply, used, calls, |front|, front + LaidOut(Becomes(supply, input), LacksID(), calls, used), k)
  {
    var become := Becomes(supply, input);
    var call, nth: nat := calls[k], used + Count(LacksID(), calls, k);
    var part := PartFor(call, supply(nth), input(call));
    assert become(call, nth) == [part];
    LaidOutAt(become, HasName(), LacksID(), calls, used, k, call, nth, part);
    StandsBehind(front, LaidOut(become, LacksID(), calls, used), Count(HasName(), calls, k), part);
    PartDelivers(lib, trims, call, supply(nth), input(call));
  }

  /** The calls behind the other parts. */
  lemma CallsDelivered(lib: Library, trims: bool, supply: nat -> string, input: ToolCall -> Fields, used: nat, calls: seq<ToolCall>, front: seq<Part>)
    requires forall k :: 0 <= k < |calls| && !Blank(calls[k].name) ==>
               input(calls[k]) == RemapToolCallArgs(calls[k].name, ObjectIn(lib, calls[k].arguments, trims))
    ensures DeliversCalls(lib, trims, supply, used, calls, |front|, front + ToolParts(supply, input, calls, used))
  {
    ToolPartsLaidOut(supply, input, calls, used);
    LaidOutCount(Becomes(supply, input), HasName(), LacksID(), calls, used);
    forall k | 0 <= k < |calls|
      ensures DeliversAt(lib, trims, supply, used, calls, |front|, front + LaidOut(Becomes(supply, input), LacksID(), calls, used), k)
    {
      if !Blank(calls[k].name) {
        CallDelivered(lib, trims, supply, input, used, calls, front, k);
      }
    }
  }

  lemma SpeechDelivered(env: Env, r: Response, tools: seq<Part>)
    ensures var front := ThinkingParts(env, r) + TextParts(r);
            DeliversSpeech(env.digest, r, |front|, front + tools)
  {
    BlankMeansSpaces(r.thinking);
  }

  lemma EndDelivered(r: Response, content: seq<Part>)
    ensures DeliversEnd(r, Message(content, StopReason(r.stopReason, r.toolCalls != []), InputTokens(r.usage), OutputTokens(r.usage)))
  {
  }

  /** What the client reads from the stream delivers the response. */
  lemma StreamDelivers(env: Env, requestedModel: string, r: Response)
    requires Inverse(env.lib) && Uncut(env, r)
    ensures var read := ReadAll(env, Waiting, StreamTrace(env, requestedModel, r));
            read.Finished? && Delivers(env, r, true, env.newID, 1, read.message)
  {
    StreamReadsBack(env, requestedModel, r);
    var front := ThinkingParts(env, r) + TextParts(r);
    SpeechDelivered(env, r, ToolParts(env.newID, Streamed(env), r.toolCalls, 1));
    CallsDelivered(env.lib, true, env.newID, Streamed(env), 1, r.toolCalls, front);
    EndDelivered(r, AllParts(env, r));
  }

  /** And so does the answer that is not streamed; only its arguments are decoded
      as they stand. */
  lemma AnswerDelivers(env: Env, r: Response, freshID: nat -> string)
    ensures Delivers(env, r, false, freshID, 0, IRToMessages(env, r, freshID))
  {
    var front := ThinkingParts(env, r) + TextParts(r);
    SpeechDelivered(env, r, ToolParts(freshID, Answered(env), r.toolCalls, 0));
    forall k | 0 <= k < |r.toolCalls|
      ensures Answered(env)(r.toolCalls[k]) == RemapToolCallArgs(r.toolCalls[k].name, ObjectIn(env.lib, r.toolCalls[k].arguments, false))
    {
      var call := r.toolCalls[k];
      SameTool(call.name, AnsweredArguments(env, call), ObjectIn(env.lib, call.arguments, false));
    }
    CallsDelivered(env.lib, false, freshID, Answered(env), 0, r.toolCalls, front);
    EndDelivered(r, front + ToolParts(freshID, Answered(env), r.toolCalls, 0));
  }

  /** The stream opens with an id that marks a message, the response's own if it
      is one, and the model that was asked for. */
  lemma StreamOpens(env: Env, requestedModel: string, r: Response)
    ensures var first := StreamTrace(env, requestedModel, r)[0];
            && first.MessageStart? && "msg_" <= first.id
            && (first.id == TrimSpace(r.id) || (!("msg_" <= TrimSpace(r.id)) && first.id == "msg_" + env.newID(0)))
            && first.model == TrimSpace(if Blank(requestedModel) then r.model else requestedModel)
  {
    TrimSpaceTrimmed(requestedModel);
  }
}
