/** What the endpoint tester shows of answers that are not streamed: the Anthropic
    message, and the choices of the OpenAI shapes. */
module TesterAnswers {
  import opened Text
  import opened JsonValues
  import opened Models
  import opened Sse
  import opened EndpointTester
  import opened ReadBack
  import A = AnthropicStream

  // ---------- the Anthropic message ----------

  function PartJson(p: A.Part): Json {
    match p
    case ThinkingPart(thinking, signature) => JObject(map["type" := Str("thinking"), "thinking" := Str(thinking), "signature" := Str(signature)])
    case TextPart(text) => JObject(map["type" := Str("text"), "text" := Str(text)])
    case ToolPart(id, name, input) => JObject(map["type" := Str("tool_use"), "id" := Str(id), "name" := Str(name), "input" := JObject(input)])
  }

  function PartsJson(parts: seq<A.Part>): seq<Json> {
    if parts == [] then [] else [PartJson(parts[0])] + PartsJson(parts[1..])
  }

  /** The answer as it is sent; the other fields are arbitrary. */
  function MessageJson(extra: Fields, m: A.Message): Json {
    JObject(extra["content" := JArray(PartsJson(m.content))])
  }

  predicate NoOtherAnswer(extra: Fields) {
    "choices" !in extra && "response" !in extra
  }

  /** What a part shows of a kind. */
  function Showing(p: A.Part, kind: string): seq<string> {
    var content := if p.ThinkingPart? && kind == "thinking" then Sanitize(p.thinking)
                   else if p.TextPart? && kind == "text" then Sanitize(p.text) else "";
    if content == "" then [] else [content]
  }

  lemma KindTrimmed(kind: string)
    requires kind in ["thinking", "text", "tool_use"]
    ensures JsTrim(kind) == kind
  {
    assert !JsSpace(kind[0]) && !JsSpace(kind[|kind| - 1]);
    assert JsTrimLeft(kind) == kind;
  }

  /** What the list gives when the first block is of this type. */
  lemma FirstBlock(other: Json -> string, f: Fields, rest: seq<Json>, kind: string, of: string)
    requires "type" in f && f["type"] == JString(of) && JsTrim(of) == of
    ensures Blocks(other, [JObject(f)] + rest, kind)
            == (if of == kind && Sanitize(TextOf(other, f, kind)) != "" then [Sanitize(TextOf(other, f, kind))] else []) + Blocks(other, rest, kind)
  {
    assert ([JObject(f)] + rest)[1..] == rest;
    assert TextOf(other, f, "type") == of;
  }

  lemma ThinkingBlockShows(other: Json -> string, p: A.Part, rest: seq<Json>, kind: string)
    requires p.ThinkingPart? && kind in ["thinking", "text"]
    ensures Blocks(other, [PartJson(p)] + rest, kind) == Showing(p, kind) + Blocks(other, rest, kind)
  {
    KindTrimmed("thinking");
    FirstBlock(other, PartJson(p).fields, rest, kind, "thinking");
  }

  lemma TextBlockShows(other: Json -> string, p: A.Part, rest: seq<Json>, kind: string)
    requires p.TextPart? && kind in ["thinking", "text"]
    ensures Blocks(other, [PartJson(p)] + rest, kind) == Showing(p, kind) + Blocks(other, rest, kind)
  {
    KindTrimmed("text");
    FirstBlock(other, PartJson(p).fields, rest, kind, "text");
  }

  lemma ToolBlockShows(other: Json -> string, p: A.Part, rest: seq<Json>, kind: string)
    requires p.ToolPart? && kind in ["thinking", "text"]
    ensures Blocks(other, [PartJson(p)] + rest, kind) == Showing(p, kind) + Blocks(other, rest, kind)
  {
    KindTrimmed("tool_use");
    FirstBlock(other, PartJson(p).fields, rest, kind, "tool_use");
  }

  lemma BlockShows(other: Json -> string, p: A.Part, rest: seq<Json>, kind: string)
    requires kind in ["thinking", "text"]
    ensures Blocks(other, [PartJson(p)] + rest, kind) == Showing(p, kind) + Blocks(other, rest, kind)
  {
    match p
    case ThinkingPart(_, _) => ThinkingBlockShows(other, p, rest, kind);
    case TextPart(_) => TextBlockShows(other, p, rest, kind);
    case ToolPart(_, _, _) => ToolBlockShows(other, p, rest, kind);
  }

  function AllShowing(parts: seq<A.Part>, kind: string): seq<string> {
    if parts == [] then [] else Showing(parts[0], kind) + AllShowing(parts[1..], kind)
  }

  lemma {:induction false} BlocksShow(other: Json -> string, parts: seq<A.Part>, kind: string)
    requires kind in ["thinking", "text"]
    ensures Blocks(other, PartsJson(parts), kind) == AllShowing(parts, kind)
    decreases |parts|
  {
    if parts != [] {
      BlockShows(other, parts[0], PartsJson(parts[1..]), kind);
      BlocksShow(other, parts[1..], kind);
    }
  }

  lemma {:induction false} ToolsShowNothing(parts: seq<A.Part>, kind: string)
    requires forall p :: p in parts ==> p.ToolPart?
    ensures AllShowing(parts, kind) == []
    decreases |parts|
  {
    if parts != [] {
      assert parts[0] in parts;
      ToolsShowNothing(parts[1..], kind);
    }
  }

  lemma {:induction false} ShowingAppend(a: seq<A.Part>, b: seq<A.Part>, kind: string)
    ensures AllShowing(a + b, kind) == AllShowing(a, kind) + AllShowing(b, kind)
    decreases |a|
  {
    if a == [] {
      assert a + b == b;
    } else {
      assert (a + b)[1..] == a[1..] + b;
      ShowingAppend(a[1..], b, kind);
      Assoc(Showing(a[0], kind), AllShowing(a[1..], kind), AllShowing(b, kind));
    }
  }

  lemma OneShowing(p: A.Part, kind: string)
    ensures AllShowing([p], kind) == Showing(p, kind)
  {
    assert [p][1..] == [];
    assert Showing(p, kind) + [] == Showing(p, kind);
  }

  /** A list with the text, unless it is empty. */
  function Once(s: string): seq<string> {
    if s == "" then [] else [s]
  }

  lemma SpeechShows(env: A.Env, r: Response, freshID: nat -> string)
    ensures AllShowing(A.IRToMessages(env, r, freshID).content, "thinking") == Once(if Blank(r.thinking) then "" else Sanitize(r.thinking))
    ensures AllShowing(A.IRToMessages(env, r, freshID).content, "text") == Once(if Blank(r.text) then "" else Sanitize(r.text))
  {
    var thinking, text := A.ThinkingParts(env, r), A.TextParts(r);
    var tools := A.ToolParts(freshID, A.Answered(env), r.toolCalls, 0);
    A.ToolPartsSendable(freshID, A.Answered(env), r.toolCalls, 0);
    PartsShow(thinking, text, tools, "thinking");
    PartsShow(thinking, text, tools, "text");
    if thinking != [] { OneShowing(thinking[0], "thinking"); OneShowing(thinking[0], "text"); }
    if text != [] { OneShowing(text[0], "thinking"); OneShowing(text[0], "text"); }
  }

  lemma PartsShow(a: seq<A.Part>, b: seq<A.Part>, tools: seq<A.Part>, kind: string)
    requires forall p :: p in tools ==> p.ToolPart?
    ensures AllShowing(a + b + tools, kind) == AllShowing(a, kind) + AllShowing(b, kind)
  {
    ShowingAppend(a + b, tools, kind);
    ShowingAppend(a, b, kind);
    ToolsShowNothing(tools, kind);
    assert AllShowing(a, kind) + AllShowing(b, kind) + [] == AllShowing(a, kind) + AllShowing(b, kind);
  }

  // ---------- plain text ----------

  /** ASCII text without an opening environment tag. */
  predicate PlainText(s: string) {
    Ascii(s) && Lacks(s, OPENING)
  }

  lemma PlainSanitized(s: string)
    requires PlainText(s)
    ensures Sanitize(s) == TrimSpace(s) && PlainText(TrimSpace(s)) && Sanitize(TrimSpace(s)) == TrimSpace(s)
  {
    PlainShownAs(s);
    SanitizedAsShown(s, TrimSpace(s));
    TrimmedPlain(s);
    PlainShownAs(TrimSpace(s));
    TrimSpaceTrimmed(s);
    SanitizedAsShown(TrimSpace(s), TrimSpace(TrimSpace(s)));
  }

  lemma TrimmedPlain(s: string)
    requires PlainText(s)
    ensures PlainText(TrimSpace(s))
  {
    var left, t := LeftRun(s), TrimSpace(s);
    TrimLeftProps(s);
    TrimRightProps(TrimLeft(s));
    var right := RightRun(TrimLeft(s));
    assert s == left + (t + right);
    AsciiParts(left, t + right);
    AsciiParts(t, right);
    forall k | 0 <= k < |t| ensures !StartsWithFolded(t, OPENING, k) {
      StartsInPart(left, t, right, OPENING, k);
    }
  }

  lemma StartsInPart(a: string, t: string, b: string, tag: string, k: nat)
    ensures StartsWithFolded(t, tag, k) ==> StartsWithFolded(a + (t + b), tag, |a| + k)
  {
    if StartsWithFolded(t, tag, k) {
      forall i | 0 <= i < |tag| ensures LowerChar((a + (t + b))[|a| + k + i]) == tag[i] {
        assert (a + (t + b))[|a| + k + i] == t[k + i];
      }
    }
  }

  /** What is shown of thinking and text that are plain. */
  function Plainly(thinking: string, text: string): Option<Shown> {
    if Blank(thinking) && Blank(text) then None else Some(Shown(TrimSpace(thinking), TrimSpace(text)))
  }

  lemma SummarizedPlainly(thinking: string, text: string)
    requires PlainText(thinking) && PlainText(text)
    ensures Summarize(Shown(thinking, text)) == Plainly(thinking, text)
    ensures Summarize(Shown(TrimSpace(thinking), TrimSpace(text))) == Plainly(thinking, text)
  {
    PlainSanitized(thinking);
    PlainSanitized(text);
  }

  // ---------- what is shown ----------

  lemma JoinedOnce(s: string)
    ensures JoinBlocks(Once(s)) == s
  {
  }

  /** For every plain response the answer that is not streamed shows the trimmed
      thinking and text, as the stream does. */
  lemma AnswerShows(other: Json -> string, extra: Fields, env: A.Env, r: Response, freshID: nat -> string)
    requires PlainText(r.thinking) && PlainText(r.text) && NoOtherAnswer(extra)
    ensures FromJSON(other, MessageJson(extra, A.IRToMessages(env, r, freshID))) == Plainly(r.thinking, r.text)
  {
    var m := A.IRToMessages(env, r, freshID);
    SpeechShows(env, r, freshID);
    BlocksShow(other, m.content, "thinking");
    BlocksShow(other, m.content, "text");
    PlainSanitized(r.thinking);
    PlainSanitized(r.text);
    JoinedOnce(TrimSpace(r.thinking));
    JoinedOnce(TrimSpace(r.text));
    SummarizedPlainly(r.thinking, r.text);
  }

  lemma StreamShowsAsAnswer(codec: Codec, other: Json -> string, extra: Fields, env: A.Env, requestedModel: string, r: Response, freshID: nat -> string)
    requires Faithful(codec) && PlainText(r.thinking) && PlainText(r.text) && NoOtherAnswer(extra)
    requires forall e :: e in A.StreamTrace(env, requestedModel, r) ==> Says(codec.range, e)
    ensures Extract(codec, other, WriteAll(codec, AnthropicWire(A.StreamTrace(env, requestedModel, r))))
            == FromJSON(other, MessageJson(extra, A.IRToMessages(env, r, freshID)))
  {
    AnthropicShowsPlain(codec, other, env, requestedModel, r);
    AnswerShows(other, extra, env, r, freshID);
  }

  // ---------- the OpenAI shapes ----------

  lemma OneChoice(fields: Fields, choice: Fields)
    requires "choices" in fields && fields["choices"] == JArray([JObject(choice)])
    ensures FromOpenAI(fields) == Summarize(Choice(choice))
  {
    var items := [JObject(choice)];
    assert items[1..] == [];
    var c := Choice(choice);
    assert c.thinking + "" == c.thinking && c.message + "" == c.message;
    assert Plus(c, Shown("", "")) == c;
    assert Choices(items) == Plus(c, Choices([])) == c;
  }

  /** A message whose content is a list of one text. */
  function InParts(text: string): Json {
    JObject(map["content" := JArray([JObject(map["type" := Str("text"), "text" := Str(text)])])])
  }

  lemma PartsContent(text: string)
    ensures MessageContent(InParts(text).fields) == Sanitize(if JsTrim(text) == "" then "" else text) && Reasoning(InParts(text).fields) == ""
  {
    var part := JObject(map["type" := Str("text"), "text" := Str(text)]);
    var items := [part];
    assert items[1..] == [];
    assert ContentParts(items) == (if JsTrim(text) == "" then "" else text) + ContentParts([]);
    assert text + "" == text;
  }

  /** A chat message, a chunk of one, and a completion: the trimmed reasoning and text. */
  lemma ChatShows(other: Json -> string, extra: Fields, thinking: string, text: string)
    requires PlainText(thinking) && PlainText(text)
    ensures var said := JObject(map["content" := Str(text), "reasoning_content" := Str(thinking)]);
            && FromOpenAI(extra["choices" := JArray([JObject(map["message" := said])])]) == Plainly(thinking, text)
            && FromOpenAI(extra["choices" := JArray([JObject(map["delta" := said])])]) == Plainly(thinking, text)
            && FromOpenAI(extra["choices" := JArray([JObject(map["text" := Str(text)])])]) == Plainly("", text)
            && FromOpenAI(extra["choices" := JArray([JObject(map["message" := InParts(text)])])]) == Plainly("", text)
  {
    var said := map["content" := Str(text), "reasoning_content" := Str(thinking)];
    var message, delta, plain := map["message" := JObject(said)], map["delta" := JObject(said)], map["text" := Str(text)];
    OneChoice(extra["choices" := JArray([JObject(message)])], message);
    OneChoice(extra["choices" := JArray([JObject(delta)])], delta);
    OneChoice(extra["choices" := JArray([JObject(plain)])], plain);
    PlainSanitized(text);
    SummarizedPlainly(thinking, text);
    SummarizedPlainly(thinking, TrimSpace(text));
    SummarizedPlainly("", text);
    ChoicesAre(said, thinking, text);
    PartsShown(extra, text);
  }

  lemma PartsShown(extra: Fields, text: string)
    requires PlainText(text)
    ensures FromOpenAI(extra["choices" := JArray([JObject(map["message" := InParts(text)])])]) == Plainly("", text)
  {
    var message := map["message" := InParts(text)];
    OneChoice(extra["choices" := JArray([JObject(message)])], message);
    PartsContent(text);
    MessageChoice(message, InParts(text).fields);
    PlainSanitized(text);
    PlainSanitized("");
    TrimmedAlike(text);
    BlankMeansSpaces("");
    SummarizedPlainly("", TrimSpace(text));
    SummarizedPlainly("", text);
  }

  lemma NothingAdded(s: Shown)
    ensures Plus(s, Shown("", "")) == s && Plus(Shown("", ""), s) == s
  {
    assert s.thinking + "" == s.thinking && "" + s.thinking == s.thinking;
    assert s.message + "" == s.message && "" + s.message == s.message;
  }

  lemma MessageChoice(c: Fields, said: Fields)
    requires c == map["message" := JObject(said)]
    ensures Choice(c) == Shown(Reasoning(said), MessageContent(said))
  {
    assert ObjectOf(c, "message") == Some(said) && ObjectOf(c, "delta") == None && Reasoning(c) == "" && StringField(c, "text") == "";
    NothingAdded(Shown(Reasoning(said), MessageContent(said)));
  }

  lemma DeltaChoice(c: Fields, said: Fields)
    requires c == map["delta" := JObject(said)]
    ensures Choice(c) == Shown(Reasoning(said), StringField(said, "content"))
  {
    assert ObjectOf(c, "message") == None && ObjectOf(c, "delta") == Some(said) && Reasoning(c) == "" && StringField(c, "text") == "";
    NothingAdded(Shown(Reasoning(said), StringField(said, "content")));
  }

  lemma TextChoice(c: Fields, text: string)
    requires c == map["text" := Str(text)]
    ensures Choice(c) == Shown("", text)
  {
    assert ObjectOf(c, "message") == None && ObjectOf(c, "delta") == None && Reasoning(c) == "" && StringField(c, "text") == text;
    NothingAdded(Shown("", ""));
    NothingAdded(Shown("", text));
  }

  lemma ChoicesAre(said: Fields, thinking: string, text: string)
    requires said == map["content" := Str(text), "reasoning_content" := Str(thinking)]
    ensures Choice(map["message" := JObject(said)]) == Shown(thinking, Sanitize(text))
    ensures Choice(map["delta" := JObject(said)]) == Shown(thinking, text)
    ensures Choice(map["text" := Str(text)]) == Shown("", text)
  {
    MessageChoice(map["message" := JObject(said)], said);
    DeltaChoice(map["delta" := JObject(said)], said);
    TextChoice(map["text" := Str(text)], text);
    assert Reasoning(said) == thinking && StringField(said, "content") == text && said["content"] == JString(text);
  }
}
