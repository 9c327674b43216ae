/** MessagesToIR: an Anthropic request becomes a conversation, neighbours of one
    role are merged, the tool history is sanitized; and the validator that runs
    later can then only object to an image without a source. */
module AnthropicRequest {
  import opened Text
  import opened JsonValues
  import opened Models
  import opened Conversation
  import opened ToolHistory
  import opened Validation

  /** Text extraction from JSON content, JSON encoding, and fresh ids. */
  datatype Env = Env(textOf: Json -> string, marshal: Json -> string, marshalBlocks: seq<ContentBlock> -> string, supply: nat -> string)

  datatype RequestMessage = RequestMessage(role: string, content: Json)
  datatype Request = Request(model: string, system: Json, messages: seq<RequestMessage>)

  /** stripAnthropicCacheControl. */
  function Strip(j: Json): Json
    decreases j
  {
    match j
    case JArray(items) => JArray(seq(|items|, i requires 0 <= i < |items| => Strip(items[i])))
    case JObject(f) => JObject(map k | k in f && k != "cache_control" :: Strip(f[k]))
    case _ => j
  }

  function StringOf(f: Fields, key: string): string {
    if key in f && f[key].JString? then f[key].s else ""
  }

  function FieldOr(f: Fields, key: string): Json {
    if key in f then f[key] else JNull
  }

  // ---------- content ----------

  datatype Converted = Converted(textParts: seq<string>, images: seq<ContentBlock>, calls: seq<ToolCall>,
                                 results: seq<Message>, thinking: seq<Thinking>, issued: nat)

  function AddText(c: Converted, fragment: string): Converted {
    if Blank(fragment) then c else c.(textParts := c.textParts + [fragment])
  }

  function AddImage(c: Converted, block: Fields): Converted {
    if "source" !in block || !block["source"].JObject? then c
    else
      var source := block["source"].fields;
      var data, media := StringOf(source, "data"), StringOf(source, "media_type");
      if Blank(data) && Blank(media) then c
      else c.(images := c.images + [ImageBlock(Image(TrimSpace(media), TrimSpace(data), ""))])
  }

  function AddThinking(c: Converted, block: Fields): Converted {
    var text := StringOf(block, "thinking");
    if Blank(text) then c else c.(thinking := c.thinking + [Thinking(text, TrimSpace(StringOf(block, "signature")))])
  }

  function AddToolUse(env: Env, c: Converted, block: Fields): Converted {
    var name := TrimSpace(StringOf(block, "name"));
    if name == "" then c
    else
      var given := TrimSpace(StringOf(block, "id"));
      var input := if "input" in block && block["input"].JObject? then block["input"] else JObject(map[]);
      c.(calls := c.calls + [ToolCall(if given == "" then FreshId(env.supply, c.issued) else given, name, env.marshal(input))],
         issued := if given == "" then c.issued + 1 else c.issued)
  }

  /** contentImagesFromAnthropicToolResult. */
  function ResultImages(items: seq<Json>): seq<Image> {
    if items == [] then []
    else
      var first := items[0];
      (if first.JObject? && Lower(TrimSpace(StringOf(first.fields, "type"))) == "image"
          && "source" in first.fields && first.fields["source"].JObject?
       then var source := first.fields["source"].fields;
            [Image(TrimSpace(StringOf(source, "media_type")), TrimSpace(StringOf(source, "data")), "")]
       else []) + ResultImages(items[1..])
  }

  function ResultMessage(id: string, text: string, images: seq<Image>): Message {
    Message(Tool, Blocks([ToolResultBlock(TrimSpace(id), text, images)]), "", [], id, [])
  }

  function AddToolResult(env: Env, c: Converted, block: Fields): Converted {
    var id := TrimSpace(StringOf(block, "tool_use_id"));
    if id == "" then c
    else
      var content := FieldOr(block, "content");
      var text := TrimSpace(env.textOf(Strip(content)));
      var images := if content.JArray? then ResultImages(content.items) else [];
      c.(results := c.results + [ResultMessage(id, if text == "" then "." else text, images)])
  }

  datatype BlockKind = TextKind | ImageKind | ThinkingKind | RedactedKind | ToolUseKind | ToolResultKind | OtherKind

  function KindOf(block: Fields): BlockKind {
    var name := Lower(TrimSpace(StringOf(block, "type")));
    if name == "text" then TextKind
    else if name == "image" then ImageKind
    else if name == "thinking" then ThinkingKind
    else if name == "redacted_thinking" then RedactedKind
    else if name == "tool_use" then ToolUseKind
    else if name == "tool_result" then ToolResultKind
    else OtherKind
  }

  function AddBlock(env: Env, assistant: bool, c: Converted, block: Fields, kind: BlockKind): Converted {
    match kind
    case TextKind => AddText(c, StringOf(block, "text"))
    case ImageKind => AddImage(c, block)
    case ThinkingKind => AddThinking(c, block)
    case RedactedKind => c
    case ToolUseKind => if assistant then AddToolUse(env, c, block) else c
    case ToolResultKind => if assistant then c else AddToolResult(env, c, block)
    case OtherKind => AddText(c, env.textOf(JObject(block)))
  }

  /** One item of a content list. */
  function AddItem(env: Env, assistant: bool, c: Converted, item: Json): Converted {
    var clean := Strip(item);
    if clean.JObject? then AddBlock(env, assistant, c, clean.fields, KindOf(clean.fields))
    else AddText(c, env.textOf(clean))
  }

  function AddItems(env: Env, assistant: bool, c: Converted, items: seq<Json>): Converted
    decreases |items|
  {
    if items == [] then c else AddItems(env, assistant, AddItem(env, assistant, c, items[0]), items[1..])
  }

  /** convertAnthropicMessageContent: the text, and the pieces found. */
  datatype Pieces = Pieces(text: string, calls: seq<ToolCall>, results: seq<Message>, thinking: seq<Thinking>, issued: nat)

  /** attachAnthropicImages: images survive only without tool results. */
  function Attach(results: seq<Message>, images: seq<ContentBlock>): seq<Message> {
    if images != [] && results == [] then [Message(User, Blocks(images), "", [], "", [])] else results
  }

  function Convert(env: Env, assistant: bool, content: Json, issued: nat): Pieces {
    match content
    case JString(s) => Pieces(TrimSpace(s), [], [], [], issued)
    case JArray(items) =>
      var c := AddItems(env, assistant, Converted([], [], [], [], [], issued), items);
      Pieces(TrimSpace(Concat(c.textParts)), c.calls, Attach(c.results, c.images), c.thinking, c.issued)
    case _ => Pieces(TrimSpace(env.textOf(Strip(content))), [], [], [], issued)
  }

  method ConvertContent(env: Env, assistant: bool, content: Json, issued: nat) returns (p: Pieces)
    ensures p == Convert(env, assistant, content, issued)
  {
    match content {
      case JString(s) =>
        return Pieces(TrimSpace(s), [], [], [], issued);
      case JArray(items) =>
        var c := Converted([], [], [], [], [], issued);
        var i := 0;
        assert items[0..] == items;
        while i < |items|
          invariant 0 <= i <= |items|
          invariant AddItems(env, assistant, c, items[i..]) == AddItems(env, assistant, Converted([], [], [], [], [], issued), items)
        {
          assert items[i..][1..] == items[i + 1..];
          c := AddItem(env, assistant, c, items[i]);
          i := i + 1;
        }
        return Pieces(TrimSpace(Concat(c.textParts)), c.calls, Attach(c.results, c.images), c.thinking, c.issued);
      case _ =>
        return Pieces(TrimSpace(env.textOf(Strip(content))), [], [], [], issued);
    }
  }

  function ThinkingBlocks(thinking: seq<Thinking>): seq<ContentBlock> {
    seq(|thinking|, i requires 0 <= i < |thinking| => ThinkingBlock(TrimSpace(thinking[i].thinking), TrimSpace(thinking[i].signature)))
  }

  /** buildAnthropicCanonicalContent for a text that is not blank. */
  function Canonical(text: string, thinking: seq<Thinking>): Content {
    if thinking == [] then Plain(TrimSpace(text)) else Blocks([TextBlock(TrimSpace(text))] + ThinkingBlocks(thinking))
  }

  /** anthropicMessageToIRMessages. */
  function ToMessages(env: Env, m: RequestMessage, issued: nat): seq<Message> {
    var assistant := Lower(TrimSpace(m.role)) == "assistant";
    var p := Convert(env, assistant, Strip(m.content), issued);
    if assistant then
      if Blank(p.text) && p.calls == [] && p.thinking == [] then []
      else [Message(Assistant, if Blank(p.text) then Nothing else Canonical(p.text, p.thinking), "", p.calls, "", p.thinking)]
    else
      p.results + (if Blank(p.text) then [] else [Message(User, Canonical(p.text, p.thinking), "", [], "", p.thinking)])
  }

  function IssuedAfter(env: Env, m: RequestMessage, issued: nat): nat {
    Convert(env, Lower(TrimSpace(m.role)) == "assistant", Strip(m.content), issued).issued
  }

  function AllMessages(env: Env, messages: seq<RequestMessage>, issued: nat): seq<Message>
    decreases |messages|
  {
    if messages == [] then []
    else ToMessages(env, messages[0], issued) + AllMessages(env, messages[1..], IssuedAfter(env, messages[0], issued))
  }

  // ---------- merging neighbours ----------

  function TextOfContent(env: Env, c: Content): string {
    match c
    case Nothing => ""
    case Plain(text) => TrimSpace(text)
    case Blocks(blocks) => TrimSpace(env.marshalBlocks(blocks))
    case Raw(json) => TrimSpace(env.marshal(json))
  }

  /** mergeMessageContent: always a string, or nothing. */
  function MergeContent(env: Env, a: Content, b: Content): Content {
    var left, right := TrimSpace(TextOfContent(env, a)), TrimSpace(TextOfContent(env, b));
    if left == "" && right == "" then Nothing
    else if left == "" then Plain(right)
    else if right == "" then Plain(left)
    else Plain(left + "\n\n" + right)
  }

  /** Neighbours of one role are merged; tool messages only for one id. */
  predicate Mergeable(a: Message, b: Message) {
    a.role == b.role && (a.role == Tool ==> TrimSpace(a.toolCallId) == TrimSpace(b.toolCallId))
  }

  function Merged(env: Env, a: Message, b: Message): Message {
    Message(a.role, MergeContent(env, a.content, b.content), FirstNonEmpty(a.name, b.name), a.toolCalls + b.toolCalls,
            FirstNonEmpty(a.toolCallId, b.toolCallId), a.thinkingBlocks + b.thinkingBlocks)
  }

  function MergeFrom(env: Env, current: Message, rest: seq<Message>): seq<Message>
    decreases |rest|
  {
    if rest == [] then [current]
    else if Mergeable(current, rest[0]) then MergeFrom(env, Merged(env, current, rest[0]), rest[1..])
    else [current] + MergeFrom(env, rest[0], rest[1..])
  }

  function MergeConsecutive(env: Env, messages: seq<Message>): seq<Message> {
    if messages == [] then [] else MergeFrom(env, messages[0], messages[1..])
  }

  /** mergeConsecutiveMessages. */
  method MergeConsecutiveMessages(env: Env, messages: seq<Message>) returns (merged: seq<Message>)
    ensures merged == MergeConsecutive(env, messages)
  {
    if |messages| <= 1 {
      return messages;
    }
    merged := [];
    var current := messages[0];
    var idx := 1;
    while idx < |messages|
      invariant 1 <= idx <= |messages|
      invariant MergeConsecutive(env, messages) == merged + MergeFrom(env, current, messages[idx..])
    {
      var next := messages[idx];
      assert messages[idx..][1..] == messages[idx + 1..];
      idx := idx + 1;
      if !Mergeable(current, next) {
        Assoc(merged, [current], MergeFrom(env, next, messages[idx..]));
        merged := merged + [current];
        current := next;
        continue;
      }
      current := Merged(env, current, next);
    }
    merged := merged + [current];
  }

  // ---------- the whole conversion ----------

  datatype Outcome = ModelRequired | MessagesEmpty | Ready(messages: seq<Message>)

  function Gathered(env: Env, r: Request): seq<Message> {
    var system := TrimSpace(env.textOf(r.system));
    (if system == "" then [] else [Message(System, Plain(system), "", [], "", [])]) + AllMessages(env, r.messages, 0)
  }

  /** The supply used by sanitizing continues in another range. */
  function MessagesToIR(env: Env, sanitizing: nat -> string, r: Request): Outcome {
    if Blank(r.model) then ModelRequired
    else
      var messages := Sanitize(AnthropicCodec, sanitizing, MergeConsecutive(env, Gathered(env, r)));
      if messages == [] then MessagesEmpty else Ready(messages)
  }

  // ---------- shapes ----------

  ghost predicate AllShaped(messages: seq<Message>) {
    forall i :: 0 <= i < |messages| ==> Shaped(messages[i])
  }

  lemma {:induction false} NoResults(blocks: seq<ContentBlock>)
    requires forall i :: 0 <= i < |blocks| ==> !blocks[i].ToolResultBlock?
    ensures ResultIdsOf(blocks) == []
    decreases |blocks|
  {
    if blocks != [] {
      NoResults(blocks[1..]);
    }
  }

  lemma CanonicalShaped(text: string, thinking: seq<Thinking>)
    ensures ContentResultIds(Canonical(text, thinking)) == []
  {
    if thinking != [] {
      NoResults(Canonical(text, thinking).blocks);
    }
  }

  /** The collected pieces never mix: images are images, results are results. */
  ghost predicate Sorted(c: Converted) {
    (forall i :: 0 <= i < |c.images| ==> c.images[i].ImageBlock?) && AllShaped(c.results)
  }

  lemma ResultShaped(id: string, text: string, images: seq<Image>)
    requires id != "" && Trimmed(id)
    ensures Shaped(ResultMessage(id, text, images))
  {
    var block := ToolResultBlock(TrimSpace(id), text, images);
    TrimmedIsItself(id);
    assert |[block][1..]| == 0;
    assert ResultIdsOf([block]) == [id] + ResultIdsOf([block][1..]) == [id];
  }

  lemma AddToolResultSorted(env: Env, c: Converted, block: Fields)
    requires Sorted(c)
    ensures Sorted(AddToolResult(env, c, block))
  {
    var id := TrimSpace(StringOf(block, "tool_use_id"));
    TrimSpaceTrimmed(StringOf(block, "tool_use_id"));
    if id != "" {
      var d := AddToolResult(env, c, block);
      var last := d.results[|c.results|].content.blocks[0];
      ResultShaped(id, last.result, last.images);
    }
  }

  lemma AddBlockSorted(env: Env, assistant: bool, c: Converted, block: Fields, kind: BlockKind)
    requires Sorted(c)
    ensures Sorted(AddBlock(env, assistant, c, block, kind))
  {
    AddToolResultSorted(env, c, block);
  }

  lemma AddItemSorted(env: Env, assistant: bool, c: Converted, item: Json)
    requires Sorted(c)
    ensures Sorted(AddItem(env, assistant, c, item))
  {
    var clean := Strip(item);
    if clean.JObject? {
      AddBlockSorted(env, assistant, c, clean.fields, KindOf(clean.fields));
    }
  }

  lemma {:induction false} AddItemsSorted(env: Env, assistant: bool, c: Converted, items: seq<Json>)
    requires Sorted(c)
    ensures Sorted(AddItems(env, assistant, c, items))
    decreases |items|
  {
    if items != [] {
      AddItemSorted(env, assistant, c, items[0]);
      AddItemsSorted(env, assistant, AddItem(env, assistant, c, items[0]), items[1..]);
    }
  }

  lemma ConvertShaped(env: Env, assistant: bool, content: Json, issued: nat)
    ensures AllShaped(Convert(env, assistant, content, issued).results)
  {
    if content.JArray? {
      var start := Converted([], [], [], [], [], issued);
      AddItemsSorted(env, assistant, start, content.items);
      var c := AddItems(env, assistant, start, content.items);
      NoResults(c.images);
    }
  }

  lemma ToMessagesShaped(env: Env, m: RequestMessage, issued: nat)
    ensures AllShaped(ToMessages(env, m, issued))
  {
    var assistant := Lower(TrimSpace(m.role)) == "assistant";
    var p := Convert(env, assistant, Strip(m.content), issued);
    ConvertShaped(env, assistant, Strip(m.content), issued);
    CanonicalShaped(p.text, p.thinking);
  }

  lemma {:induction false} AllMessagesShaped(env: Env, messages: seq<RequestMessage>, issued: nat)
    ensures AllShaped(AllMessages(env, messages, issued))
    decreases |messages|
  {
    if messages != [] {
      ToMessagesShaped(env, messages[0], issued);
      AllMessagesShaped(env, messages[1..], IssuedAfter(env, messages[0], issued));
    }
  }

  lemma {:induction false} MergeShaped(env: Env, current: Message, rest: seq<Message>)
    requires Shaped(current) && AllShaped(rest)
    ensures AllShaped(MergeFrom(env, current, rest))
    decreases |rest|
  {
    if rest != [] {
      assert AllShaped(rest[1..]);
      if Mergeable(current, rest[0]) {
        MergeShaped(env, Merged(env, current, rest[0]), rest[1..]);
      } else {
        MergeShaped(env, rest[0], rest[1..]);
      }
    }
  }

  /** For every Anthropic request: the conversation it becomes passes all tool
      rules of the validator, and is rejected exactly when an image that survived
      has neither data nor a URL. */
  lemma RequestPassesToolRules(env: Env, sanitizing: nat -> string, r: Request)
    requires ProperSupply(sanitizing)
    ensures var o := MessagesToIR(env, sanitizing, r);
            o.Ready? ==> Validate(o.messages)
                         == if forall i :: 0 <= i < |o.messages| ==> Sourced(ContentImages(o.messages[i].content)) then Accepted else ImageSource
  {
    var gathered := Gathered(env, r);
    AllMessagesShaped(env, r.messages, 0);
    assert AllShaped(gathered);
    var merged := MergeConsecutive(env, gathered);
    if gathered != [] {
      assert AllShaped(gathered[1..]);
      MergeShaped(env, gathered[0], gathered[1..]);
    }
    SanitizedPasses(AnthropicCodec, sanitizing, merged);
  }

  // ---------- merging leaves no mergeable neighbours ----------

  predicate Separate(messages: seq<Message>) {
    forall i :: 0 < i < |messages| ==> !Mergeable(messages[i - 1], messages[i])
  }

  lemma {:induction false} MergeSeparates(env: Env, current: Message, rest: seq<Message>)
    ensures var merged := MergeFrom(env, current, rest);
            merged != [] && merged[0].role == current.role && Separate(merged) &&
            (current.role == Tool ==> TrimSpace(merged[0].toolCallId) == TrimSpace(current.toolCallId))
    decreases |rest|
  {
    if rest != [] {
      if Mergeable(current, rest[0]) {
        TrimSpaceTrimmed(current.toolCallId);
        TrimSpaceTrimmed(rest[0].toolCallId);
        MergeSeparates(env, Merged(env, current, rest[0]), rest[1..]);
      } else {
        MergeSeparates(env, rest[0], rest[1..]);
      }
    }
  }

  lemma {:induction false} SeparateStays(env: Env, messages: seq<Message>)
    requires messages != [] && Separate(messages)
    ensures MergeFrom(env, messages[0], messages[1..]) == messages
    decreases |messages|
  {
    var rest := messages[1..];
    if rest != [] {
      assert rest[0] == messages[1] && !Mergeable(messages[0], messages[1]);
      assert Separate(rest) by {
        assert forall i :: 0 < i < |rest| ==> rest[i - 1] == messages[i] && rest[i] == messages[i + 1];
      }
      SeparateStays(env, rest);
    }
  }

  /** Merging twice is merging once. */
  lemma MergeIdempotent(env: Env, messages: seq<Message>)
    ensures MergeConsecutive(env, MergeConsecutive(env, messages)) == MergeConsecutive(env, messages)
  {
    if messages != [] {
      MergeSeparates(env, messages[0], messages[1..]);
      SeparateStays(env, MergeConsecutive(env, messages));
    }
  }
}
