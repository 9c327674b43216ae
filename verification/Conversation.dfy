/** Conversations in the provider-independent form. */
module Conversation {
  import opened Text
  import opened JsonValues
  import opened Models

  datatype Role = System | Developer | User | Assistant | Tool

  datatype Image = Image(mediaType: string, data: string, url: string)

  datatype ContentBlock =
    | TextBlock(text: string)
    | ImageBlock(image: Image)
    | ToolResultBlock(callId: string, result: string, images: seq<Image>)
    | ThinkingBlock(thinking: string, signature: string)

  /** The Content field of a message: nothing, a string, typed blocks, or JSON
      that was passed through. */
  datatype Content = Nothing | Plain(text: string) | Blocks(blocks: seq<ContentBlock>) | Raw(json: Json)

  datatype Thinking = Thinking(thinking: string, signature: string)

  datatype Message = Message(role: Role, content: Content, name: string, toolCalls: seq<ToolCall>,
                             toolCallId: string, thinkingBlocks: seq<Thinking>)

  /** strings.Join(parts, "\n") over the parts that are not blank. */
  function JoinVisible(parts: seq<string>): string {
    if parts == [] then ""
    else
      var rest := JoinVisible(parts[1..]);
      if Blank(parts[0]) then rest else if rest == "" then parts[0] else parts[0] + "\n" + rest
  }

  function BlockText(b: ContentBlock): string {
    match b
    case TextBlock(text) => text
    case ImageBlock(_) => ""
    case ToolResultBlock(_, result, _) => result
    case ThinkingBlock(thinking, _) => thinking
  }

  function RawText(j: Json): string
    decreases j
  {
    match j
    case JString(s) => TrimSpace(s)
    case JArray(items) => TrimSpace(JoinVisible(seq(|items|, i requires 0 <= i < |items| => RawText(items[i]))))
    case JObject(f) =>
      if "text" in f && !Blank(RawText(f["text"])) then RawText(f["text"])
      else if "content" in f && !Blank(RawText(f["content"])) then RawText(f["content"])
      else if "thinking" in f && !Blank(RawText(f["thinking"])) then RawText(f["thinking"])
      else if "refusal" in f && !Blank(RawText(f["refusal"])) then RawText(f["refusal"])
      else ""
    case _ => ""
  }

  /** models.ContentText. */
  function ContentText(c: Content): string {
    match c
    case Nothing => ""
    case Plain(text) => TrimSpace(text)
    case Blocks(blocks) => TrimSpace(JoinVisible(seq(|blocks|, i requires 0 <= i < |blocks| => BlockText(blocks[i]))))
    case Raw(json) => RawText(json)
  }

  function BlockImages(b: ContentBlock): seq<Image> {
    match b
    case ImageBlock(image) => [image]
    case ToolResultBlock(_, _, images) => images
    case _ => []
  }

  function ImagesOf(blocks: seq<ContentBlock>): seq<Image> {
    if blocks == [] then [] else BlockImages(blocks[0]) + ImagesOf(blocks[1..])
  }

  /** models.ContentImages. */
  function ContentImages(c: Content): seq<Image> {
    if c.Blocks? then ImagesOf(c.blocks) else []
  }

  function ResultIdsOf(blocks: seq<ContentBlock>): seq<string> {
    if blocks == [] then []
    else (if blocks[0].ToolResultBlock? then [blocks[0].callId] else []) + ResultIdsOf(blocks[1..])
  }

  /** The call ids of models.ContentToolResults. */
  function ContentResultIds(c: Content): seq<string> {
    if c.Blocks? then ResultIdsOf(c.blocks) else []
  }

  // ---------- what the extraction finds ----------

  /** Something visible to read. */
  ghost predicate Shows(c: Content) {
    match c
    case Nothing => false
    case Plain(text) => !Blank(text)
    case Blocks(blocks) => exists i :: 0 <= i < |blocks| && BlockShows(blocks[i])
    case Raw(json) => RawShows(json)
  }

  predicate BlockShows(b: ContentBlock) {
    || (b.TextBlock? && !Blank(b.text))
    || (b.ToolResultBlock? && !Blank(b.result))
    || (b.ThinkingBlock? && !Blank(b.thinking))
  }

  /** A text, in a list, or in one of the fields that hold text. */
  predicate RawShows(j: Json)
    decreases j
  {
    match j
    case JString(s) => !Blank(s)
    case JArray(items) => exists i :: 0 <= i < |items| && RawShows(items[i])
    case JObject(f) =>
      || ("text" in f && RawShows(f["text"])) || ("content" in f && RawShows(f["content"]))
      || ("thinking" in f && RawShows(f["thinking"])) || ("refusal" in f && RawShows(f["refusal"]))
    case _ => false
  }

  ghost predicate AllBlank(parts: seq<string>) {
    forall i :: 0 <= i < |parts| ==> Blank(parts[i])
  }

  lemma AllBlankRest(parts: seq<string>)
    requires parts != []
    ensures AllBlank(parts) <==> Blank(parts[0]) && AllBlank(parts[1..])
  {
    assert forall i :: 0 < i < |parts| ==> parts[i] == parts[1..][i - 1];
    assert forall i :: 0 <= i < |parts[1..]| ==> parts[1..][i] == parts[i + 1];
  }

  lemma {:induction false} JoinVisibleShows(parts: seq<string>)
    ensures Blank(JoinVisible(parts)) <==> AllBlank(parts)
    ensures AllBlank(parts) ==> JoinVisible(parts) == ""
    decreases |parts|
  {
    BlankMeansSpaces("");
    if parts != [] {
      JoinVisibleShows(parts[1..]);
      AllBlankRest(parts);
      BlankSplit(parts[0], "\n" + JoinVisible(parts[1..]));
      Assoc(parts[0], "\n", JoinVisible(parts[1..]));
    }
  }

  lemma TrimmedBlank(s: string)
    ensures Blank(TrimSpace(s)) <==> Blank(s)
  {
    TrimSpaceTrimmed(s);
  }

  lemma {:induction false} RawTextShows(j: Json)
    ensures Blank(RawText(j)) <==> !RawShows(j)
    decreases j
  {
    BlankMeansSpaces("");
    match j {
      case JString(s) => TrimmedBlank(s);
      case JArray(items) =>
        var parts := seq(|items|, i requires 0 <= i < |items| => RawText(items[i]));
        forall i | 0 <= i < |items| ensures Blank(parts[i]) <==> !RawShows(items[i]) { RawTextShows(items[i]); }
        JoinVisibleShows(parts);
        TrimmedBlank(JoinVisible(parts));
      case JObject(f) =>
        if "text" in f { RawTextShows(f["text"]); }
        if "content" in f { RawTextShows(f["content"]); }
        if "thinking" in f { RawTextShows(f["thinking"]); }
        if "refusal" in f { RawTextShows(f["refusal"]); }
      case JNull => case JBool(_) => case JNumber(_) =>
    }
  }

  /** Text is found exactly when there is something visible to read. */
  lemma ContentShows(c: Content)
    ensures Blank(ContentText(c)) <==> !Shows(c)
  {
    BlankMeansSpaces("");
    match c {
      case Nothing =>
      case Plain(text) => TrimmedBlank(text);
      case Blocks(blocks) =>
        var parts := seq(|blocks|, i requires 0 <= i < |blocks| => BlockText(blocks[i]));
        forall i | 0 <= i < |blocks| ensures Blank(parts[i]) <==> !BlockShows(blocks[i]) {}
        JoinVisibleShows(parts);
        TrimmedBlank(JoinVisible(parts));
      case Raw(json) => RawTextShows(json);
    }
  }

  /** An image block, or an image of a tool result. */
  ghost predicate Pictures(b: ContentBlock, image: Image) {
    || b == ImageBlock(image)
    || (b.ToolResultBlock? && image in b.images)
  }

  lemma {:induction false} ImagesFound(blocks: seq<ContentBlock>, image: Image)
    ensures image in ImagesOf(blocks) <==> exists i :: 0 <= i < |blocks| && Pictures(blocks[i], image)
    decreases |blocks|
  {
    if blocks != [] {
      ImagesFound(blocks[1..], image);
      assert forall i :: 0 < i < |blocks| ==> blocks[i] == blocks[1..][i - 1];
      assert forall i :: 0 <= i < |blocks[1..]| ==> blocks[1..][i] == blocks[i + 1];
    }
  }

  lemma {:induction false} ResultIdsFound(blocks: seq<ContentBlock>, id: string)
    ensures id in ResultIdsOf(blocks) <==> exists i :: 0 <= i < |blocks| && blocks[i].ToolResultBlock? && blocks[i].callId == id
    decreases |blocks|
  {
    if blocks != [] {
      ResultIdsFound(blocks[1..], id);
      assert forall i :: 0 < i < |blocks| ==> blocks[i] == blocks[1..][i - 1];
      assert forall i :: 0 <= i < |blocks[1..]| ==> blocks[1..][i] == blocks[i + 1];
    }
  }

  /** The images and the results that a message is judged by are those of its blocks. */
  lemma ContentFinds(c: Content, image: Image, id: string)
    ensures image in ContentImages(c) <==> c.Blocks? && exists i :: 0 <= i < |c.blocks| && Pictures(c.blocks[i], image)
    ensures id in ContentResultIds(c) <==> c.Blocks? && exists i :: 0 <= i < |c.blocks| && c.blocks[i].ToolResultBlock? && c.blocks[i].callId == id
  {
    if c.Blocks? {
      ImagesFound(c.blocks, image);
      ResultIdsFound(c.blocks, id);
    }
  }
}
