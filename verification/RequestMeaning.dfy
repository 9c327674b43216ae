/** What becomes of the content of an Anthropic request, said of the content
    itself: which texts, calls, results, thoughts and images are taken from it,
    how neighbours are joined, and that no visible text is lost. */
module RequestMeaning {
  import opened Text
  import opened JsonValues
  import opened Models
  import opened Conversation
  import opened ToolHistory
  import opened AnthropicRequest
  import opened Layout

  // ---------- cache control ----------

  /** No object anywhere in the value has a cache_control field. */
  predicate Uncached(j: Json)
    decreases j
  {
    match j
    case JArray(items) => forall i :: 0 <= i < |items| ==> Uncached(items[i])
    case JObject(f) => "cache_control" !in f && forall k :: k in f ==> Uncached(f[k])
    case _ => true
  }

  /** Stripping leaves no cache_control, */
  lemma {:induction false} StripRemoves(j: Json)
    ensures Uncached(Strip(j))
    decreases j
  {
    match j {
      case JArray(items) =>
        forall i | 0 <= i < |items| ensures Uncached(Strip(items[i])) { StripRemoves(items[i]); }
      case JObject(f) =>
        forall k | k in f ensures Uncached(Strip(f[k])) { StripRemoves(f[k]); }
      case JNull => case JBool(_) => case JNumber(_) => case JString(_) =>
    }
  }

  /** changes nothing where there is none, */
  lemma {:induction false} StripKeeps(j: Json)
    requires Uncached(j)
    ensures Strip(j) == j
    decreases j
  {
    match j {
      case JArray(items) =>
        forall i | 0 <= i < |items| ensures Strip(items[i]) == items[i] { StripKeeps(items[i]); }
      case JObject(f) =>
        forall k | k in f ensures Strip(f[k]) == f[k] { StripKeeps(f[k]); }
      case JNull => case JBool(_) => case JNumber(_) => case JString(_) =>
    }
  }

  lemma StripTwice(j: Json)
    ensures Strip(Strip(j)) == Strip(j)
  {
    StripRemoves(j);
    StripKeeps(Strip(j));
  }

  /** and leaves every other field where it was. */
  lemma StripField(f: Fields, key: string)
    requires key != "cache_control"
    ensures Strip(JObject(f)).JObject?
    ensures var g := Strip(JObject(f)).fields; (key in g <==> key in f) && (key in f ==> g[key] == Strip(f[key]))
    ensures StringOf(Strip(JObject(f)).fields, key) == StringOf(f, key)
  {
  }

  // ---------- what one item of a content list says ----------

  /** The kind of a block is told by its type, in whatever case and trimmed. */
  lemma KindsByName(f: Fields)
    ensures var name := Lower(TrimSpace(StringOf(f, "type")));
            && (KindOf(f) == TextKind <==> name == "text")
            && (KindOf(f) == ImageKind <==> name == "image")
            && (KindOf(f) == ThinkingKind <==> name == "thinking")
            && (KindOf(f) == RedactedKind <==> name == "redacted_thinking")
            && (KindOf(f) == ToolUseKind <==> name == "tool_use")
            && (KindOf(f) == ToolResultKind <==> name == "tool_result")
  {
  }

  predicate Is(item: Json, kind: BlockKind) {
    item.JObject? && KindOf(item.fields) == kind
  }

  /** The text of a text block; of what is of no known type, the text found in it. */
  function FragmentOf(env: Env, item: Json): string {
    if Is(item, TextKind) then StringOf(item.fields, "text")
    else if item.JObject? && KindOf(item.fields) != OtherKind then ""
    else env.textOf(Strip(item))
  }

  function TextsOf(env: Env, item: Json): seq<string> {
    if Blank(FragmentOf(env, item)) then [] else [FragmentOf(env, item)]
  }

  predicate HasSource(item: Json) {
    Is(item, ImageKind) && "source" in item.fields && item.fields["source"].JObject?
  }

  function ImageOf(item: Json): Image
    requires HasSource(item)
  {
    var source := item.fields["source"].fields;
    Image(TrimSpace(StringOf(source, "media_type")), TrimSpace(StringOf(source, "data")), "")
  }

  function ImagesOfItem(item: Json): seq<ContentBlock> {
    if HasSource(item) && (ImageOf(item).mediaType != "" || ImageOf(item).data != "") then [ImageBlock(ImageOf(item))] else []
  }

  function ThoughtsOf(item: Json): seq<Thinking> {
    if Is(item, ThinkingKind) && !Blank(StringOf(item.fields, "thinking"))
    then [Thinking(StringOf(item.fields, "thinking"), TrimSpace(StringOf(item.fields, "signature")))]
    else []
  }

  predicate IsCall(item: Json) {
    Is(item, ToolUseKind) && !Blank(StringOf(item.fields, "name"))
  }

  /** A call for a named tool_use block, with its own id or the next fresh one. */
  function CallsOf(env: Env, item: Json, issued: nat): seq<ToolCall> {
    if !IsCall(item) then []
    else
      var f := item.fields;
      var input := if "input" in f && f["input"].JObject? then f["input"] else JObject(map[]);
      [ToolCall(if Blank(StringOf(f, "id")) then "toolu_" + env.supply(issued) else TrimSpace(StringOf(f, "id")),
                TrimSpace(StringOf(f, "name")), env.marshal(Strip(input)))]
  }

  predicate TakesId(item: Json) {
    IsCall(item) && Blank(StringOf(item.fields, "id"))
  }

  function SourcesOf(items: seq<Json>): seq<Image> {
    if items == [] then [] else (if HasSource(items[0]) then [ImageOf(items[0])] else []) + SourcesOf(items[1..])
  }

  /** A tool message for a tool_result block that names its call. */
  function ResultsOf(env: Env, item: Json): seq<Message> {
    if !Is(item, ToolResultKind) || Blank(StringOf(item.fields, "tool_use_id")) then []
    else
      var id := TrimSpace(StringOf(item.fields, "tool_use_id"));
      var content := if "content" in item.fields then item.fields["content"] else JNull;
      var text := TrimSpace(env.textOf(Strip(content)));
      [Message(Tool, Blocks([ToolResultBlock(id, if text == "" then "." else text, if content.JArray? then SourcesOf(content.items) else [])]),
               "", [], id, [])]
  }

  // ---------- what a content list says ----------

  /** What an item or a list contributes, and how many fresh ids that takes. */
  datatype Said = Said(texts: seq<string>, images: seq<ContentBlock>, calls: seq<ToolCall>, results: seq<Message>,
                       thoughts: seq<Thinking>, taken: nat)

  const NothingSaid := Said([], [], [], [], [], 0)

  function Both(a: Said, b: Said): Said {
    Said(a.texts + b.texts, a.images + b.images, a.calls + b.calls, a.results + b.results, a.thoughts + b.thoughts, a.taken + b.taken)
  }

  /** Calls are an assistant's, results a user's. */
  function SaidBy(env: Env, assistant: bool, item: Json, issued: nat): Said {
    Said(TextsOf(env, item), ImagesOfItem(item), if assistant then CallsOf(env, item, issued) else [],
         if assistant then [] else ResultsOf(env, item), ThoughtsOf(item), One(assistant && TakesId(item)))
  }

  function Saying(env: Env, assistant: bool): (Json, nat) -> Said {
    (item: Json, issued: nat) => SaidBy(env, assistant, item, issued)
  }

  /** One item after the other; each takes its fresh ids where the last one stopped. */
  function InTurn(say: (Json, nat) -> Said, items: seq<Json>, issued: nat): Said
    decreases |items|
  {
    if items == [] then NothingSaid
    else
      var first := say(items[0], issued);
      Both(first, InTurn(say, items[1..], issued + first.taken))
  }

  function SaidByAll(env: Env, assistant: bool, items: seq<Json>, issued: nat): Said {
    InTurn(Saying(env, assistant), items, issued)
  }

  // ---------- the conversion says the same ----------

  function Stripped(items: seq<Json>): seq<Json> {
    Strip(JArray(items)).items
  }

  lemma StrippedCons(items: seq<Json>)
    requires items != []
    ensures Stripped(items) == [Strip(items[0])] + Stripped(items[1..])
  {
  }

  /** The image of one item, as it is and stripped. */
  lemma ResultImagesCons(item: Json, rest: seq<Json>)
    ensures ResultImages([Strip(item)] + rest) == (if HasSource(item) then [ImageOf(item)] else []) + ResultImages(rest)
  {
    assert ([Strip(item)] + rest)[1..] == rest;
    SourceStripped(item);
    if Strip(item).JObject? {
      KindsByName(Strip(item).fields);
    }
  }

  lemma {:induction false} SourcesStripped(items: seq<Json>)
    ensures ResultImages(Stripped(items)) == SourcesOf(items)
    decreases |items|
  {
    if items != [] {
      StrippedCons(items);
      SourcesStripped(items[1..]);
      ResultImagesCons(items[0], Stripped(items[1..]));
    }
  }

  lemma SourceStripped(item: Json)
    ensures HasSource(Strip(item)) == HasSource(item) && (HasSource(item) ==> ImageOf(Strip(item)) == ImageOf(item))
  {
    if item.JObject? {
      StripField(item.fields, "type");
      StripField(item.fields, "source");
      if HasSource(item) {
        StripField(item.fields["source"].fields, "media_type");
        StripField(item.fields["source"].fields, "data");
      }
    }
  }

  /** What is collected, with the contribution of something more. */
  function Plus(c: Converted, s: Said): Converted {
    Converted(c.textParts + s.texts, c.images + s.images, c.calls + s.calls, c.results + s.results, c.thinking + s.thoughts, c.issued + s.taken)
  }

  ghost predicate Adds(env: Env, assistant: bool, c: Converted, item: Json, d: Converted) {
    d == Plus(c, SaidBy(env, assistant, item, c.issued))
  }

  lemma KindStripped(f: Fields)
    ensures KindOf(Strip(JObject(f)).fields) == KindOf(f)
  {
    StripField(f, "type");
  }

  lemma AddsText(env: Env, assistant: bool, c: Converted, item: Json)
    requires Is(item, TextKind)
    ensures Adds(env, assistant, c, item, AddText(c, StringOf(item.fields, "text")))
  {
  }

  lemma PictureOf(item: Json)
    requires Is(item, ImageKind)
    ensures var f := Strip(item).fields;
            && ("source" in f && f["source"].JObject? <==> HasSource(item))
            && (HasSource(item) ==> StringOf(f["source"].fields, "data") == StringOf(item.fields["source"].fields, "data") &&
                                    StringOf(f["source"].fields, "media_type") == StringOf(item.fields["source"].fields, "media_type"))
  {
    StripField(item.fields, "source");
    if HasSource(item) {
      StripField(item.fields["source"].fields, "media_type");
      StripField(item.fields["source"].fields, "data");
    }
  }

  lemma AddsImage(env: Env, assistant: bool, c: Converted, item: Json)
    requires Is(item, ImageKind)
    ensures Adds(env, assistant, c, item, AddImage(c, Strip(item).fields))
  {
    PictureOf(item);
    BlankMeansSpaces("");
  }

  lemma ThoughtStripped(c: Converted, item: Json)
    requires Is(item, ThinkingKind)
    ensures AddThinking(c, Strip(item).fields) == c.(thinking := c.thinking + ThoughtsOf(item))
  {
    StripField(item.fields, "thinking");
    StripField(item.fields, "signature");
    Appending(c.thinking);
  }

  lemma AddsThinking(env: Env, assistant: bool, c: Converted, item: Json)
    requires Is(item, ThinkingKind)
    ensures Adds(env, assistant, c, item, AddThinking(c, Strip(item).fields))
  {
    ThoughtStripped(c, item);
    BlankMeansSpaces("");
  }

  lemma InputStripped(item: Json)
    requires Is(item, ToolUseKind)
    ensures var f, g := item.fields, Strip(item).fields;
            (if "input" in g && g["input"].JObject? then g["input"] else JObject(map[]))
            == Strip(if "input" in f && f["input"].JObject? then f["input"] else JObject(map[]))
  {
    StripField(item.fields, "input");
    StripKeeps(JObject(map[]));
  }

  lemma CallStripped(env: Env, c: Converted, item: Json)
    requires Is(item, ToolUseKind)
    ensures var f := Strip(item).fields;
            var d := AddToolUse(env, c, f);
            d == c.(calls := c.calls + CallsOf(env, item, c.issued), issued := c.issued + One(TakesId(item)))
  {
    StripField(item.fields, "name");
    StripField(item.fields, "id");
    InputStripped(item);
    BlankMeansSpaces("");
    Appending(c.calls);
  }

  lemma Appending<T>(s: seq<T>)
    ensures s + [] == s
  {
  }

  lemma AddsCall(env: Env, assistant: bool, c: Converted, item: Json)
    requires Is(item, ToolUseKind)
    ensures Adds(env, assistant, c, item, if assistant then AddToolUse(env, c, Strip(item).fields) else c)
  {
    CallStripped(env, c, item);
    BlankMeansSpaces("");
  }

  lemma ContentStripped(item: Json)
    requires Is(item, ToolResultKind)
    ensures var content := if "content" in item.fields then item.fields["content"] else JNull;
            var stripped := FieldOr(Strip(item).fields, "content");
            && Strip(stripped) == Strip(content) && stripped.JArray? == content.JArray?
            && (content.JArray? ==> ResultImages(stripped.items) == SourcesOf(content.items))
  {
    var content := if "content" in item.fields then item.fields["content"] else JNull;
    StripField(item.fields, "content");
    StripTwice(content);
    if content.JArray? {
      SourcesStripped(content.items);
    }
  }

  lemma ResultStripped(env: Env, c: Converted, item: Json)
    requires Is(item, ToolResultKind)
    ensures AddToolResult(env, c, Strip(item).fields) == c.(results := c.results + ResultsOf(env, item))
  {
    StripField(item.fields, "tool_use_id");
    ContentStripped(item);
    BlankMeansSpaces("");
    TrimSpaceTrimmed(StringOf(item.fields, "tool_use_id"));
    TrimmedIsItself(TrimSpace(StringOf(item.fields, "tool_use_id")));
    Appending(c.results);
  }

  lemma AddsResult(env: Env, assistant: bool, c: Converted, item: Json)
    requires Is(item, ToolResultKind)
    ensures Adds(env, assistant, c, item, if assistant then c else AddToolResult(env, c, Strip(item).fields))
  {
    ResultStripped(env, c, item);
    BlankMeansSpaces("");
  }

  lemma AddsNothing(env: Env, assistant: bool, c: Converted, item: Json)
    requires Is(item, RedactedKind)
    ensures Adds(env, assistant, c, item, c)
  {
    BlankMeansSpaces("");
  }

  lemma AddsOther(env: Env, assistant: bool, c: Converted, item: Json)
    requires !item.JObject? || KindOf(item.fields) == OtherKind
    ensures Adds(env, assistant, c, item, AddText(c, env.textOf(Strip(item))))
  {
  }

  lemma ItemAdds(env: Env, assistant: bool, c: Converted, item: Json)
    ensures Adds(env, assistant, c, item, AddItem(env, assistant, c, item))
  {
    if !item.JObject? {
      AddsOther(env, assistant, c, item);
    } else {
      KindStripped(item.fields);
      match KindOf(item.fields)
      case TextKind => StripField(item.fields, "text"); AddsText(env, assistant, c, item);
      case ImageKind => AddsImage(env, assistant, c, item);
      case ThinkingKind => AddsThinking(env, assistant, c, item);
      case RedactedKind => AddsNothing(env, assistant, c, item);
      case ToolUseKind => AddsCall(env, assistant, c, item);
      case ToolResultKind => AddsResult(env, assistant, c, item);
      case OtherKind => AddsOther(env, assistant, c, item);
    }
  }

  lemma PlusPlus(c: Converted, a: Said, b: Said, both: Said, next: Converted, d: Converted)
    requires next == Plus(c, a) && d == Plus(next, b) && both == Both(a, b)
    ensures d == Plus(c, both)
  {
    Assoc(c.textParts, a.texts, b.texts);
    Assoc(c.images, a.images, b.images);
    Assoc(c.calls, a.calls, b.calls);
    Assoc(c.results, a.results, b.results);
    Assoc(c.thinking, a.thoughts, b.thoughts);
  }

  ghost predicate AddsAll(env: Env, assistant: bool, c: Converted, items: seq<Json>, d: Converted) {
    d == Plus(c, SaidByAll(env, assistant, items, c.issued))
  }

  lemma AddsNone(env: Env, assistant: bool, c: Converted)
    ensures AddsAll(env, assistant, c, [], c)
  {
  }

  lemma SaidFirst(say: (Json, nat) -> Said, items: seq<Json>, issued: nat, first: Said, next: nat, rest: Said)
    requires items != [] && first == say(items[0], issued) && next == issued + first.taken && rest == InTurn(say, items[1..], next)
    ensures InTurn(say, items, issued) == Both(first, rest)
  {
  }

  lemma AddsFirst(env: Env, assistant: bool, c: Converted, items: seq<Json>, next: Converted, d: Converted)
    requires items != [] && Adds(env, assistant, c, items[0], next) && AddsAll(env, assistant, next, items[1..], d)
    ensures AddsAll(env, assistant, c, items, d)
  {
    var first, rest := SaidBy(env, assistant, items[0], c.issued), SaidByAll(env, assistant, items[1..], next.issued);
    SaidFirst(Saying(env, assistant), items, c.issued, first, next.issued, rest);
    PlusPlus(c, first, rest, SaidByAll(env, assistant, items, c.issued), next, d);
  }

  lemma {:induction false} ItemsAdd(env: Env, assistant: bool, c: Converted, items: seq<Json>)
    ensures AddsAll(env, assistant, c, items, AddItems(env, assistant, c, items))
    decreases |items|
  {
    if items == [] {
      AddsNone(env, assistant, c);
    } else {
      var next := AddItem(env, assistant, c, items[0]);
      ItemAdds(env, assistant, c, items[0]);
      ItemsAdd(env, assistant, next, items[1..]);
      AddsFirst(env, assistant, c, items, next, AddItems(env, assistant, next, items[1..]));
    }
  }

  /** For every content list: the text is the joined visible texts, trimmed; the
      calls, the thoughts and the results are those of its blocks in order. Without
      any result a user's images make a message of their own. */
  lemma ListConverted(env: Env, assistant: bool, items: seq<Json>, issued: nat)
    ensures var p, said := Convert(env, assistant, JArray(items), issued), SaidByAll(env, assistant, items, issued);
            && p.text == TrimSpace(Concat(said.texts)) && p.calls == said.calls && p.thinking == said.thoughts
            && p.issued == issued + said.taken
            && p.results == if said.results != [] || said.images == [] then said.results
                            else [Message(User, Blocks(said.images), "", [], "", [])]
  {
    var said := SaidByAll(env, assistant, items, issued);
    ItemsAdd(env, assistant, Converted([], [], [], [], [], issued), items);
    FromNothing(said.texts);
    FromNothing(said.images);
    FromNothing(said.thoughts);
    FromNothing(said.calls);
    FromNothing(said.results);
  }

  lemma FromNothing<T>(s: seq<T>)
    ensures [] + s == s
  {
  }

  /** Stripping the whole content first makes no difference. */
  lemma {:induction false} StrippedItems(env: Env, assistant: bool, c: Converted, items: seq<Json>)
    ensures AddItems(env, assistant, c, Stripped(items)) == AddItems(env, assistant, c, items)
    decreases |items|
  {
    if items != [] {
      StrippedCons(items);
      assert Stripped(items)[1..] == Stripped(items[1..]);
      StripTwice(items[0]);
      StrippedItems(env, assistant, AddItem(env, assistant, c, items[0]), items[1..]);
    }
  }

  lemma StrippedConverted(env: Env, assistant: bool, content: Json, issued: nat)
    ensures Convert(env, assistant, Strip(content), issued) == Convert(env, assistant, content, issued)
  {
    if content.JArray? {
      StrippedItems(env, assistant, Converted([], [], [], [], [], issued), content.items);
    } else {
      StripTwice(content);
    }
  }

  // ---------- plain blocks ----------

  /** Whatever other fields a block has: its text is read, */
  lemma PlainText(env: Env, extra: Fields, text: string)
    ensures FragmentOf(env, JObject(extra["type" := JString("text")]["text" := JString(text)])) == text
  {
    var f := extra["type" := JString("text")]["text" := JString(text)];
    TypeRead("text");
    assert StringOf(f, "type") == "text";
    KindsByName(f);
  }

  /** its call, */
  lemma PlainCall(env: Env, extra: Fields, id: string, name: string, input: Fields, issued: nat)
    requires !Blank(id) && !Blank(name)
    ensures var f := extra["type" := JString("tool_use")]["id" := JString(id)]["name" := JString(name)]["input" := JObject(input)];
            CallsOf(env, JObject(f), issued) == [ToolCall(TrimSpace(id), TrimSpace(name), env.marshal(Strip(JObject(input))))]
  {
    var f := extra["type" := JString("tool_use")]["id" := JString(id)]["name" := JString(name)]["input" := JObject(input)];
    TypeRead("tool_use");
    assert StringOf(f, "type") == "tool_use";
    KindsByName(f);
    assert StringOf(f, "id") == id && StringOf(f, "name") == name && f["input"] == JObject(input);
  }

  /** or its result. */
  lemma PlainResult(env: Env, extra: Fields, id: string, text: string)
    requires !Blank(id)
    ensures var f := extra["type" := JString("tool_result")]["tool_use_id" := JString(id)]["content" := JString(text)];
            var said := TrimSpace(env.textOf(JString(text)));
            ResultsOf(env, JObject(f))
            == [Message(Tool, Blocks([ToolResultBlock(TrimSpace(id), if said == "" then "." else said, [])]), "", [], TrimSpace(id), [])]
  {
    var f := extra["type" := JString("tool_result")]["tool_use_id" := JString(id)]["content" := JString(text)];
    TypeRead("tool_result");
    assert StringOf(f, "type") == "tool_result";
    KindsByName(f);
    assert StringOf(f, "tool_use_id") == id && f["content"] == JString(text);
  }

  lemma TypeRead(name: string)
    requires name in ["text", "tool_use", "tool_result"]
    ensures Lower(TrimSpace(name)) == name
  {
    SolidEnds(name);
    assert forall i :: 0 <= i < |name| ==> LowerChar(name[i]) == name[i];
  }

  // ---------- joining neighbours ----------

  /** Texts one after the other, a blank line between them. */
  function Paragraphs(texts: seq<string>): string {
    if texts == [] then ""
    else if |texts| == 1 then texts[0]
    else Paragraphs(texts[..|texts| - 1]) + ("\n\n" + texts[|texts| - 1])
  }

  /** The texts of a run of messages that are not blank. */
  function TextsIn(env: Env, run: seq<Message>): seq<string> {
    if run == [] then []
    else
      var last := TextOfContent(env, run[|run| - 1].content);
      TextsIn(env, run[..|run| - 1]) + if last == "" then [] else [last]
  }

  function CallsIn(run: seq<Message>): seq<ToolCall> {
    if run == [] then [] else CallsIn(run[..|run| - 1]) + run[|run| - 1].toolCalls
  }

  function ThoughtsIn(run: seq<Message>): seq<Thinking> {
    if run == [] then [] else ThoughtsIn(run[..|run| - 1]) + run[|run| - 1].thinkingBlocks
  }

  predicate Alike(a: Message, b: Message) {
    a.role == b.role && (a.role == Tool ==> TrimSpace(a.toolCallId) == TrimSpace(b.toolCallId))
  }

  /** A message that stands for a run of messages of its kind. */
  ghost predicate Joins(env: Env, m: Message, run: seq<Message>) {
    && run != [] && (if |run| == 1 then m == run[0] else m.content.Nothing? || m.content.Plain?)
    && (forall i :: 0 <= i < |run| ==> Alike(run[i], m))
    && TextOfContent(env, m.content) == Paragraphs(TextsIn(env, run))
    && m.toolCalls == CallsIn(run) && m.thinkingBlocks == ThoughtsIn(run)
  }

  /** Each merged message stands for its run, and the runs make up the messages. */
  ghost predicate Groups(env: Env, messages: seq<Message>, merged: seq<Message>, runs: seq<seq<Message>>) {
    && Concat(runs) == messages && |runs| == |merged|
    && forall j :: 0 <= j < |runs| ==> Joins(env, merged[j], runs[j])
  }

  lemma JoinsOne(env: Env, m: Message)
    ensures Joins(env, m, [m])
  {
    assert [m][..0] == [];
    TextIsTrimmed(env, m.content);
    assert CallsIn([m]) == [] + m.toolCalls;
    assert ThoughtsIn([m]) == [] + m.thinkingBlocks;
    assert TextsIn(env, [m]) == [] + if TextOfContent(env, m.content) == "" then [] else [TextOfContent(env, m.content)];
  }

  lemma TextIsTrimmed(env: Env, c: Content)
    ensures Trimmed(TextOfContent(env, c))
  {
    match c
    case Nothing =>
    case Plain(text) => TrimSpaceTrimmed(text);
    case Blocks(blocks) => TrimSpaceTrimmed(env.marshalBlocks(blocks));
    case Raw(json) => TrimSpaceTrimmed(env.marshal(json));
  }

  /** Two trimmed texts with a blank line between them are trimmed. */
  lemma TwoTrimmed(a: string, b: string)
    requires a != "" && b != "" && Trimmed(a) && Trimmed(b)
    ensures Trimmed(a + "\n\n" + b)
  {
    var gap := "\n\n";
    LeadApart(a, gap + b);
    TailApart(a + gap, b);
    Assoc(a, gap, b);
  }

  lemma MergedText(env: Env, a: Content, b: Content)
    ensures var (left, right) := (TextOfContent(env, a), TextOfContent(env, b));
            TextOfContent(env, MergeContent(env, a, b)) == if left == "" then right else if right == "" then left else left + "\n\n" + right
  {
    var left, right := TextOfContent(env, a), TextOfContent(env, b);
    TextIsTrimmed(env, a);
    TextIsTrimmed(env, b);
    TrimmedIsItself(left);
    TrimmedIsItself(right);
    if left != "" && right != "" {
      TwoTrimmed(left, right);
      TrimmedIsItself(left + "\n\n" + right);
    }
  }

  lemma OneMoreText(texts: seq<string>, last: string)
    requires forall i :: 0 <= i < |texts| ==> texts[i] != ""
    ensures Paragraphs(texts + if last == "" then [] else [last])
            == (if Paragraphs(texts) == "" then last else if last == "" then Paragraphs(texts) else Paragraphs(texts) + "\n\n" + last)
    ensures texts != [] ==> Paragraphs(texts) != ""
  {
    assert texts + [] == texts;
    assert (texts + [last])[..|texts|] == texts;
    Assoc(Paragraphs(texts), "\n\n", last);
  }

  lemma {:induction false} NoBlankTexts(env: Env, run: seq<Message>)
    ensures forall i :: 0 <= i < |TextsIn(env, run)| ==> TextsIn(env, run)[i] != ""
    decreases |run|
  {
    if run != [] {
      NoBlankTexts(env, run[..|run| - 1]);
    }
  }

  lemma JoinsMore(env: Env, m: Message, run: seq<Message>, next: Message)
    requires Joins(env, m, run) && Mergeable(m, next)
    ensures Joins(env, Merged(env, m, next), run + [next])
  {
    var longer := run + [next];
    assert longer[..|longer| - 1] == run && longer[|longer| - 1] == next;
    MergedText(env, m.content, next.content);
    NoBlankTexts(env, run);
    OneMoreText(TextsIn(env, run), TextOfContent(env, next.content));
    IdOfMerged(env, m, next);
  }

  lemma IdOfMerged(env: Env, a: Message, b: Message)
    requires Mergeable(a, b)
    ensures Alike(Merged(env, a, b), a) && Alike(Merged(env, a, b), b)
  {
    TrimSpaceTrimmed(a.toolCallId);
    TrimSpaceTrimmed(b.toolCallId);
    TrimmedIsItself(TrimSpace(a.toolCallId));
    TrimmedIsItself(TrimSpace(b.toolCallId));
  }

  lemma {:induction false} MergeGroups(env: Env, run: seq<Message>, current: Message, rest: seq<Message>) returns (runs: seq<seq<Message>>)
    requires Joins(env, current, run)
    ensures Groups(env, run + rest, MergeFrom(env, current, rest), runs)
    decreases |rest|
  {
    if rest == [] {
      runs := [run];
      GroupsOne(env, run, current);
    } else if Mergeable(current, rest[0]) {
      JoinsMore(env, current, run, rest[0]);
      FirstMoved(run, rest);
      runs := MergeGroups(env, run + [rest[0]], Merged(env, current, rest[0]), rest[1..]);
    } else {
      JoinsOne(env, rest[0]);
      FirstMoved([], rest);
      var others := MergeGroups(env, [rest[0]], rest[0], rest[1..]);
      runs := [run] + others;
      GroupsBefore(env, run, current, rest, MergeFrom(env, rest[0], rest[1..]), others);
    }
  }

  lemma FirstMoved<T>(run: seq<T>, rest: seq<T>)
    requires rest != []
    ensures (run + [rest[0]]) + rest[1..] == run + rest && [rest[0]] + rest[1..] == rest
  {
  }

  lemma GroupsOne(env: Env, run: seq<Message>, m: Message)
    requires Joins(env, m, run)
    ensures Groups(env, run + [], [m], [run])
  {
    assert [run][1..] == [];
    assert Concat([run]) == run + [];
  }

  lemma GroupsBefore(env: Env, run: seq<Message>, m: Message, rest: seq<Message>, merged: seq<Message>, runs: seq<seq<Message>>)
    requires Joins(env, m, run) && Groups(env, rest, merged, runs)
    ensures Groups(env, run + rest, [m] + merged, [run] + runs)
  {
    assert ([run] + runs)[1..] == runs;
  }

  /** Merging: the messages fall into runs, one for each merged message, which has
      their texts with blank lines between them, their calls and their thoughts; no
      two neighbours are left that are alike. */
  lemma MergeJoins(env: Env, messages: seq<Message>) returns (runs: seq<seq<Message>>)
    ensures Groups(env, messages, MergeConsecutive(env, messages), runs)
    ensures forall j :: 0 < j < |MergeConsecutive(env, messages)| ==>
              !Alike(MergeConsecutive(env, messages)[j - 1], MergeConsecutive(env, messages)[j])
  {
    if messages == [] {
      runs := [];
    } else {
      JoinsOne(env, messages[0]);
      FirstMoved([], messages);
      runs := MergeGroups(env, [messages[0]], messages[0], messages[1..]);
      MergeSeparates(env, messages[0], messages[1..]);
      NotAlike(MergeConsecutive(env, messages));
    }
  }

  lemma NotAlike(merged: seq<Message>)
    requires Separate(merged)
    ensures forall j :: 0 < j < |merged| ==> !Alike(merged[j - 1], merged[j])
  {
    forall j | 0 < j < |merged| ensures !Alike(merged[j - 1], merged[j]) {
      assert !Mergeable(merged[j - 1], merged[j]);
    }
  }

  // ---------- numbers of fresh ids ----------

  function TakesIds(): Json -> bool {
    (item: Json) => TakesId(item)
  }

  lemma {:induction false} TakenInTurn(say: (Json, nat) -> Said, takes: Json -> bool, items: seq<Json>, issued: nat)
    requires forall item, n :: say(item, n).taken == One(takes(item))
    ensures InTurn(say, items, issued).taken == Count(takes, items, |items|)
    decreases |items|
  {
    if items != [] {
      var next := issued + say(items[0], issued).taken;
      TakenInTurn(say, takes, items[1..], next);
      CountFront(takes, items, |items|);
    }
  }

  /** How many fresh ids the blocks of a message take. */
  function IdsTaken(assistant: bool, content: Json): nat {
    if assistant && content.JArray? then Count(TakesIds(), content.items, |content.items|) else 0
  }

  lemma IdsTakenMeans(env: Env, assistant: bool, content: Json, issued: nat)
    ensures Convert(env, assistant, Strip(content), issued).issued == issued + IdsTaken(assistant, content)
  {
    StrippedConverted(env, assistant, content, issued);
    if content.JArray? {
      ListConverted(env, assistant, content.items, issued);
      if assistant {
        TakenInTurn(Saying(env, assistant), TakesIds(), content.items, issued);
      } else {
        TakenInTurn(Saying(env, assistant), (item: Json) => false, content.items, issued);
        NoneCounted((item: Json) => false, content.items, |content.items|);
      }
    }
  }

  lemma {:induction false} NoneCounted<T(!new)>(p: T -> bool, items: seq<T>, k: nat)
    requires k <= |items| && forall item :: !p(item)
    ensures Count(p, items, k) == 0
    decreases k
  {
    if k > 0 {
      NoneCounted(p, items, k - 1);
    }
  }
}
