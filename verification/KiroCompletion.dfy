/** The completion built from what the Kiro parser has collected: joined text and
    thinking, with thinking that was tagged inside the text taken out of it. */
module KiroCompletion {
  import opened Text
  import opened BraceScan
  import opened PatternSplitter
  import opened KiroParser
  import opened KiroMeaning
  import opened KiroToolCalls
  import opened JsonValues
  import opened EventStream

  const TAGS: seq<string> := ["thinking", "think", "reasoning", "thought"]

  function OpenTag(tag: string): string {
    "<" + tag + ">"
  }

  function CloseTag(tag: string): string {
    "</" + tag + ">"
  }

  /** The first opening tag, when the first closing tag comes after it. */
  function Pair(s: string, tag: string): (pair: Option<(nat, nat)>)
    ensures pair.Some? ==> pair.value.0 < pair.value.1 && pair.value.1 + |CloseTag(tag)| <= |s|
  {
    var start, end := FindFolded(s, OpenTag(tag), 0), FindFolded(s, CloseTag(tag), 0);
    if start >= 0 && end > start then Some((start, end)) else None
  }

  predicate IsTag(tag: string) {
    tag != "" && '<' !in tag && forall i :: 0 <= i < |tag| ==> LowerChar(tag[i]) == tag[i]
  }

  /** A closing tag does not begin inside an opening one. */
  lemma PairInOrder(s: string, tag: string)
    requires IsTag(tag) && Pair(s, tag).Some?
    ensures var (start, end) := Pair(s, tag).value; start + |OpenTag(tag)| <= end
  {
    var (start, end) := Pair(s, tag).value;
    FoundThere(s, OpenTag(tag), 0);
    FoundThere(s, CloseTag(tag), 0);
    var open := OpenTag(tag);
    assert LowerChar(s[end]) == CloseTag(tag)[0] == '<';
    assert forall k :: 0 < k < |open| ==> open[k] != '<';
    forall i | start < i < start + |open| ensures LowerChar(s[i]) != '<' {
      assert LowerChar(s[start + (i - start)]) == open[i - start];
    }
  }

  lemma {:induction false} FoundThere(s: string, tag: string, at: nat)
    requires FindFolded(s, tag, at) != -1
    ensures StartsWithFolded(s, tag, FindFolded(s, tag, at))
    decreases |s| - at
  {
    if !StartsWithFolded(s, tag, at) && at < |s| {
      FoundThere(s, tag, at + 1);
    }
  }

  lemma TagsAreTags()
    ensures forall i :: 0 <= i < |TAGS| ==> IsTag(TAGS[i])
  {
  }

  function ExtractFrom(s: string, tags: seq<string>): string
    requires forall i :: 0 <= i < |tags| ==> IsTag(tags[i])
  {
    if tags == [] then ""
    else if Pair(s, tags[0]).Some? then
      PairInOrder(s, tags[0]);
      var (start, end) := Pair(s, tags[0]).value;
      TrimSpace(s[start + |OpenTag(tags[0])|..end])
    else ExtractFrom(s, tags[1..])
  }

  /** What is left when the pairs of one tag are cut out, one after the other. */
  function StripTag(s: string, tag: string): string
    decreases |s|
  {
    if Pair(s, tag).None? then s
    else
      var (start, end) := Pair(s, tag).value;
      TrimShorter(s[..start] + s[end + |CloseTag(tag)|..]);
      StripTag(TrimSpace(s[..start] + s[end + |CloseTag(tag)|..]), tag)
  }

  function StripFrom(s: string, tags: seq<string>): string
    decreases |tags|
  {
    if tags == [] then s else StripFrom(StripTag(s, tags[0]), tags[1..])
  }

  /** extractThinking. */
  method ExtractThinking(content: string) returns (r: string)
    ensures (forall i :: 0 <= i < |TAGS| ==> IsTag(TAGS[i])) && r == ExtractFrom(content, TAGS)
  {
    TagsAreTags();
    assert TAGS[0..] == TAGS;
    var i := 0;
    while i < |TAGS|
      invariant 0 <= i <= |TAGS|
      invariant ExtractFrom(content, TAGS) == ExtractFrom(content, TAGS[i..])
    {
      var tag := TAGS[i];
      var start, end := FindFolded(content, OpenTag(tag), 0), FindFolded(content, CloseTag(tag), 0);
      assert TAGS[i..][1..] == TAGS[i + 1..];
      if start >= 0 && end > start {
        PairInOrder(content, tag);
        return TrimSpace(content[start + |OpenTag(tag)|..end]);
      }
      i := i + 1;
    }
    r := "";
  }

  /** stripThinkingTags. */
  method StripThinkingTags(content: string) returns (out: string)
    ensures out == StripFrom(content, TAGS)
  {
    out := content;
    assert TAGS[0..] == TAGS;
    var i := 0;
    while i < |TAGS|
      invariant 0 <= i <= |TAGS|
      invariant StripFrom(content, TAGS) == StripFrom(out, TAGS[i..])
    {
      out := StripOne(out, TAGS[i]);
      assert TAGS[i..][1..] == TAGS[i + 1..];
      i := i + 1;
    }
  }

  /** Its inner loop. */
  method StripOne(content: string, tag: string) returns (out: string)
    ensures out == StripTag(content, tag)
  {
    out := content;
    while true
      invariant StripTag(content, tag) == StripTag(out, tag)
      decreases |out|
    {
      var start, end := FindFolded(out, OpenTag(tag), 0), FindFolded(out, CloseTag(tag), 0);
      if start < 0 || end <= start {
        break;
      }
      TrimShorter(out[..start] + out[end + |CloseTag(tag)|..]);
      out := TrimSpace(out[..start] + out[end + |CloseTag(tag)|..]);
    }
  }

  // ---------- the completion ----------

  datatype Completion = Completion(text: string, thinking: string, toolUses: seq<ToolUse>, usage: Usage)

  function Finished(c: Collected): Completion {
    TagsAreTags();
    var content := Concat(c.content.parts);
    var tagged := ExtractFrom(content, TAGS);
    Completion(TrimSpace(StripFrom(content, TAGS)), TrimSpace(if Blank(tagged) then Concat(c.thinking.parts) else tagged), c.tools.calls,
               c.usage.(totalTokens := Max(c.usage.totalTokens, c.usage.inputTokens + c.usage.outputTokens)))
  }

  /** The end of collectCompletion. */
  method Finish(c: Collected) returns (r: Completion)
    ensures r == Finished(c)
  {
    var content := Concat(c.content.parts);
    var thinking := ExtractThinking(content);
    var text := StripThinkingTags(content);
    if TrimSpace(thinking) == "" {
      thinking := Concat(c.thinking.parts);
    }
    var total := c.usage.inputTokens + c.usage.outputTokens;
    if c.usage.totalTokens > total {
      total := c.usage.totalTokens;
    }
    r := Completion(TrimSpace(text), TrimSpace(thinking), c.tools.calls, c.usage.(totalTokens := total));
  }

  /** collectCompletion. */
  method Complete(env: Env, input: Bytes) returns (r: Option<Completion>)
    ensures r == match Collect(env, Start, input)
                 case None => None
                 case Some(s) => Some(Finished(s.got.(tools := Finalize(env, s.got.tools))))
  {
    var collected := CollectCompletion(env, input);
    match collected {
      case None => r := None;
      case Some(c) =>
        var completion := Finish(c);
        r := Some(completion);
    }
  }

  // ---------- what the tags do ----------

  lemma NoPair(s: string, tag: string)
    requires '<' !in s
    ensures Pair(s, tag).None?
  {
    NoTagIn(s, OpenTag(tag), 0);
  }

  /** Text without a tag is left alone. */
  lemma {:induction false} Untagged(s: string, tags: seq<string>)
    requires '<' !in s && forall i :: 0 <= i < |tags| ==> IsTag(tags[i])
    ensures ExtractFrom(s, tags) == "" && StripFrom(s, tags) == s
    decreases |tags|
  {
    if tags != [] {
      NoPair(s, tags[0]);
      Untagged(s, tags[1..]);
    }
  }

  lemma {:induction false} FoundFirst(s: string, tag: string, at: nat, p: nat)
    requires at <= p && StartsWithFolded(s, tag, p) && forall k :: at <= k < p ==> !StartsWithFolded(s, tag, k)
    ensures FindFolded(s, tag, at) == p
    decreases p - at
  {
    if at < p {
      FoundFirst(s, tag, at + 1, p);
    }
  }

  function Tagged(a: string, b: string, c: string): string {
    a + (OpenTag(TAGS[0]) + (b + (CloseTag(TAGS[0]) + c)))
  }

  lemma TaggedBytes(a: string, b: string, c: string)
    ensures var s, p, q := Tagged(a, b, c), |a| + |OpenTag(TAGS[0])|, |a| + |OpenTag(TAGS[0])| + |b|;
            && (forall i :: 0 <= i < |a| ==> s[i] == a[i])
            && s[|a|..p] == OpenTag(TAGS[0]) && s[p..q] == b && s[q..q + |CloseTag(TAGS[0])|] == CloseTag(TAGS[0])
            && s[..|a|] + s[q + |CloseTag(TAGS[0])|..] == a + c
  {
  }

  lemma TagAt(s: string, tag: string, at: nat)
    requires at + |tag| <= |s| && s[at..at + |tag|] == tag && forall i :: 0 <= i < |tag| ==> LowerChar(tag[i]) == tag[i]
    ensures StartsWithFolded(s, tag, at)
  {
    var piece := s[at..at + |tag|];
    assert forall i :: 0 <= i < |tag| ==> s[at + i] == piece[i];
  }

  lemma NoTagAt(s: string, tag: string, k: nat)
    requires k < |s| && s[k] != '<' && tag != "" && tag[0] == '<'
    ensures !StartsWithFolded(s, tag, k)
  {
    var i := 0;
    assert LowerChar(s[k + i]) != tag[i];
  }

  lemma TagsLower()
    ensures forall i :: 0 <= i < |OpenTag(TAGS[0])| ==> LowerChar(OpenTag(TAGS[0])[i]) == OpenTag(TAGS[0])[i]
    ensures forall i :: 0 <= i < |CloseTag(TAGS[0])| ==> LowerChar(CloseTag(TAGS[0])[i]) == CloseTag(TAGS[0])[i]
    ensures OpenTag(TAGS[0]) == "<thinking>" && CloseTag(TAGS[0]) == "</thinking>"
  {
  }

  lemma TaggedPair(a: string, b: string, c: string)
    requires '<' !in a && '<' !in b
    ensures Pair(Tagged(a, b, c), TAGS[0]) == Some((|a|, |a| + |OpenTag(TAGS[0])| + |b|))
  {
    TaggedOpen(a, b, c);
    TaggedClose(a, b, c);
  }

  lemma TaggedOpen(a: string, b: string, c: string)
    requires '<' !in a
    ensures FindFolded(Tagged(a, b, c), OpenTag(TAGS[0]), 0) == |a|
  {
    var s, open := Tagged(a, b, c), OpenTag(TAGS[0]);
    TaggedBytes(a, b, c);
    TagsLower();
    TagAt(s, open, |a|);
    forall k | 0 <= k < |a| ensures !StartsWithFolded(s, open, k) {
      assert a[k] in a;
      NoTagAt(s, open, k);
    }
    FoundFirst(s, open, 0, |a|);
  }

  lemma TaggedClose(a: string, b: string, c: string)
    requires '<' !in a && '<' !in b
    ensures FindFolded(Tagged(a, b, c), CloseTag(TAGS[0]), 0) == |a| + |OpenTag(TAGS[0])| + |b|
  {
    var s, open, close := Tagged(a, b, c), OpenTag(TAGS[0]), CloseTag(TAGS[0]);
    var q := |a| + |open| + |b|;
    TaggedBytes(a, b, c);
    TagsLower();
    TagAt(s, close, q);
    forall k | 0 <= k < q ensures !StartsWithFolded(s, close, k) {
      if k < |a| {
        assert a[k] in a;
        NoTagAt(s, close, k);
      } else {
        NotClosing(s, open, b, |a|, k);
      }
    }
    FoundFirst(s, close, 0, q);
  }

  lemma NotClosing(s: string, open: string, b: string, at: nat, k: nat)
    requires open == "<thinking>" && '<' !in b && at <= k < at + |open| + |b| <= |s|
    requires s[at..at + |open|] == open && s[at + |open|..at + |open| + |b|] == b
    ensures !StartsWithFolded(s, "</thinking>", k)
  {
    var i, j, close := 0, 1, "</thinking>";
    if k == at {
      assert s[at + j] == s[at..at + |open|][1] == 't';
      assert LowerChar(s[k + j]) != close[j];
    } else if k < at + |open| {
      assert s[k + i] == open[k - at] != '<';
      assert LowerChar(s[k + i]) != close[i];
    } else {
      assert s[k + i] == b[k - at - |open|];
      assert b[k - at - |open|] in b;
      assert LowerChar(s[k + i]) != close[i];
    }
  }

  /** One pair of the first tag, and no tag around it. */
  lemma StrippedWhen(s: string, tags: seq<string>, around: string)
    requires tags != [] && '<' !in around && forall i :: 0 <= i < |tags| ==> IsTag(tags[i])
    requires var pair := Pair(s, tags[0]); pair.Some? && s[..pair.value.0] + s[pair.value.1 + |CloseTag(tags[0])|..] == around
    ensures StripFrom(s, tags) == TrimSpace(around)
  {
    TrimmedFrom(around);
    NoPair(TrimSpace(around), tags[0]);
    StripOnce(s, tags[0], around);
    Untagged(TrimSpace(around), tags[1..]);
  }

  lemma ExtractedWhen(s: string, tags: seq<string>, inside: string)
    requires tags != [] && forall i :: 0 <= i < |tags| ==> IsTag(tags[i])
    requires var pair := Pair(s, tags[0]);
             pair.Some? && pair.value.0 + |OpenTag(tags[0])| <= pair.value.1 && s[pair.value.0 + |OpenTag(tags[0])|..pair.value.1] == inside
    ensures ExtractFrom(s, tags) == TrimSpace(inside)
  {
  }

  lemma FinishedWhen(c: Collected, text: string, thinking: string)
    requires (forall i :: 0 <= i < |TAGS| ==> IsTag(TAGS[i])) && Trimmed(text) && Trimmed(thinking)
    requires var content := Concat(c.content.parts); StripFrom(content, TAGS) == text && ExtractFrom(content, TAGS) == thinking
    ensures Finished(c).text == text
    ensures Finished(c).thinking == if thinking == "" then TrimSpace(Concat(c.thinking.parts)) else thinking
  {
    TrimmedIsItself(text);
    TrimmedIsItself(thinking);
  }

  /** Thinking tagged inside the text becomes the thinking, and the text loses it. */
  lemma TaggedThinking(c: Collected, a: string, b: string, rest: string)
    requires '<' !in a && '<' !in b && '<' !in rest && Concat(c.content.parts) == Tagged(a, b, rest)
    ensures Finished(c).text == TrimSpace(a + rest)
    ensures Finished(c).thinking == if Blank(b) then TrimSpace(Concat(c.thinking.parts)) else TrimSpace(b)
  {
    TagsAreTags();
    TaggedPair(a, b, rest);
    TaggedBytes(a, b, rest);
    StrippedWhen(Tagged(a, b, rest), TAGS, a + rest);
    ExtractedWhen(Tagged(a, b, rest), TAGS, b);
    TrimSpaceTrimmed(b);
    TrimSpaceTrimmed(a + rest);
    FinishedWhen(c, TrimSpace(a + rest), TrimSpace(b));
  }

  lemma TrimmedFrom(s: string)
    ensures forall x :: x in TrimSpace(s) ==> x in s
  {
    TrimLeftProps(s);
    TrimRightProps(TrimLeft(s));
  }

  lemma StripOnce(s: string, tag: string, around: string)
    requires var pair := Pair(s, tag); pair.Some? && s[..pair.value.0] + s[pair.value.1 + |CloseTag(tag)|..] == around
    requires Pair(TrimSpace(around), tag).None?
    ensures StripTag(s, tag) == TrimSpace(around)
  {
    assert StripTag(TrimSpace(around), tag) == TrimSpace(around);
  }

  /** Without a tag, and for every list of events in whatever cut and frames: the
      text is the joined content and the thinking the joined thinking, repetitions
      dropped and trimmed. */
  lemma CompletionOfStream(env: Env, events: seq<Event>, frames: seq<Frame>)
    requires forall i :: 0 <= i < |frames| ==> Sendable(frames[i])
    requires AllValid(Patterns, events) && Concat(EventPayloads(frames)) == Texts(events)
    requires '<' !in Concat(Collapse("", Carried(Decode(env, events), Content, "content")))
    ensures var read := Collect(env, Start, EncodeAll(frames));
            && read.Some?
            && var completion := Finished(read.value.got.(tools := Finalize(env, read.value.got.tools)));
               && completion.text == TrimSpace(Concat(Collapse("", Carried(Decode(env, events), Content, "content"))))
               && completion.thinking == TrimSpace(Concat(Collapse("", Carried(Decode(env, events), Thinking, "thinking"))))
  {
    var items := Decode(env, events);
    var content := Collapse("", Carried(items, Content, "content"));
    StreamRoundTrip(env, events, frames);
    ApplyAllDecodes(env, Nothing, events);
    TextIsCollapsedContent(env, Nothing, items);
    assert [] + content == content;
    assert [] + Collapse("", Carried(items, Thinking, "thinking")) == Collapse("", Carried(items, Thinking, "thinking"));
    TagsAreTags();
    Untagged(Concat(content), TAGS);
    BlankMeansSpaces("");
  }

  /** The total that is answered: the largest reported, but no less than the sum. */
  ghost predicate UsageAnswered(items: seq<Decoded>, u: Usage) {
    exists total: int ::
      && UsageIs(items, u.(totalTokens := total))
      && u.totalTokens == if total > u.inputTokens + u.outputTokens then total else u.inputTokens + u.outputTokens
  }

  /** For every list of events in whatever cut and frames: the tool uses are the
      calls that the events announce, without repetitions, and the usage is the
      largest that was reported. */
  lemma ToolUsesOfStream(env: Env, events: seq<Event>, frames: seq<Frame>)
    requires Inverse(env.lib) && Braced(env.lib)
    requires forall i :: 0 <= i < |frames| ==> Sendable(frames[i])
    requires AllValid(Patterns, events) && Concat(EventPayloads(frames)) == Texts(events)
    ensures var read, items := Collect(env, Start, EncodeAll(frames)), Decode(env, events);
            && read.Some?
            && var completion := Finished(read.value.got.(tools := Finalize(env, read.value.got.tools)));
               && completion.toolUses == Firsts(Announced(env, items, 0))
               && UsageAnswered(items, completion.usage)
  {
    var items := Decode(env, events);
    StreamRoundTrip(env, events, frames);
    ApplyAllDecodes(env, Nothing, events);
    CallsComeOut(env, items);
    LargestReported(env, items);
    UsageFinished(items, ProcessAll(env, Nothing, items).(tools := Finalize(env, ProcessAll(env, Nothing, items).tools)));
  }

  lemma UsageFinished(items: seq<Decoded>, c: Collected)
    requires UsageIs(items, c.usage)
    ensures UsageAnswered(items, Finished(c).usage)
  {
    var u := Finished(c).usage;
    assert u.(totalTokens := c.usage.totalTokens) == c.usage;
  }

  /** Calls that are sent in fragments, in whatever cut and frames and among whatever
      other events, are the tool uses of the completion. */
  lemma SentToolUses(env: Env, events: seq<Event>, frames: seq<Frame>, sent: seq<Sent>)
    requires Inverse(env.lib) && Braced(env.lib)
    requires forall i :: 0 <= i < |frames| ==> Sendable(frames[i])
    requires AllValid(Patterns, events) && Concat(EventPayloads(frames)) == Texts(events)
    requires ToolEvents(Decode(env, events)) == AllEvents(sent) && forall k :: 0 <= k < |sent| ==> WellSent(sent[k])
    ensures var read := Collect(env, Start, EncodeAll(frames));
            && read.Some?
            && Finished(read.value.got.(tools := Finalize(env, read.value.got.tools))).toolUses == Firsts(Meant(env, sent, 0))
  {
    ToolUsesOfStream(env, events, frames);
    OnlyToolEvents(env, Decode(env, events), 0);
    SentAnnounced(env, sent, 0);
  }

  // ---------- one plain text, from the bytes on ----------

  /** A text that needs no escape. */
  predicate Simple(text: Bytes) {
    forall i :: 0 <= i < |text| ==> text[i] != '"' && text[i] != '\\' && text[i] != '<'
  }

  const CONTENT: Bytes := "content"

  /** The event {"content":"…"}. */
  function TextEvent(text: Bytes): Event {
    Event(0, Object([], Member([], Letters(CONTENT), [], [], Str(Letters(text)), [], NoMembers)))
  }

  function TextJson(text: Bytes): Bytes {
    Patterns[0] + ("\"" + text + "\"" + "}")
  }

  lemma TextEventRenders(text: Bytes)
    ensures Render(TextEvent(text).value) == TextJson(text)
  {
    var quoted: Bytes, name: Bytes := "\"" + text + "\"", "\"content\"";
    StringRenders(text, quoted);
    StringRenders(CONTENT, name);
    MembersRender(name, quoted, Member([], Letters(CONTENT), [], [], Str(Letters(text)), [], NoMembers));
    ObjectText(name, quoted);
  }

  lemma StringRenders(text: Bytes, quoted: Bytes)
    requires quoted == "\"" + text + "\""
    ensures RenderString(Letters(text)) == quoted
  {
    LettersWritten(text);
  }

  lemma ObjectText(name: Bytes, quoted: Bytes)
    requires name == "\"content\""
    ensures "{" + ([] + (name + ":" + quoted)) + "}" == Patterns[0] + (quoted + "}")
  {
    var front: Bytes := "{" + name + ":";
    assert front == Patterns[0];
    assert "{" + ([] + (name + ":" + quoted)) + "}" == front + (quoted + "}");
  }

  lemma MembersRender(name: Bytes, quoted: Bytes, m: Members)
    requires m.Member? && m.lead == [] && m.beforeColon == [] && m.afterColon == [] && m.trail == [] && m.others == NoMembers
    requires RenderString(m.key) == name && Render(m.value) == quoted
    ensures RenderMembers(m) == name + ":" + quoted
  {
    assert RenderMembers(m) == [] + name + [] + ":" + [] + quoted + [] + [];
  }

  lemma TextEventValid(text: Bytes)
    requires Simple(text)
    ensures Valid(Patterns, TextEvent(text))
  {
    TextEventRenders(text);
    assert forall i :: 0 <= i < |CONTENT| ==> CONTENT[i] != '"' && CONTENT[i] != '\\';
    assert WellFormedBody(Letters(text)) && WellFormedBody(Letters(CONTENT));
    assert WellFormed(Str(Letters(text))) && WellFormedMembers(NoMembers) && Plain([]);
    InFront(Patterns[0], "\"" + text + "\"" + "}");
  }

  lemma InFront(a: Bytes, b: Bytes)
    ensures a <= a + b
  {
  }

  /** One text, sent as one event in one frame: that is the text of the completion. */
  lemma TextArrives(env: Env, text: Bytes, preludeCrc: Bytes, messageCrc: Bytes)
    requires Simple(text) && |text| < 0x1_0000 && |preludeCrc| == |messageCrc| == 4
    requires env.lib.unmarshal(TextJson(text)) == Some(map[CONTENT := JString(text)])
    ensures var frame := Frame("event", TextJson(text), preludeCrc, messageCrc);
            Sendable(frame) &&
            var read := Collect(env, Start, EncodeAll([frame]));
            read.Some? && Finished(read.value.got.(tools := Finalize(env, read.value.got.tools))).text == TrimSpace(text)
  {
    var frame, events := Frame("event", TextJson(text), preludeCrc, messageCrc), [TextEvent(text)];
    TextEventValid(text);
    TextEventRenders(text);
    assert events[1..] == [] && [frame][1..] == [];
    assert Texts(events) == TextJson(text) + [] == TextJson(text);
    assert EventPayloads([frame]) == [TextJson(text)] + [];
    assert Concat([TextJson(text)]) == TextJson(text) + [] by { assert [TextJson(text)][1..] == []; }
    OneText(env, text);
    CompletionOfStream(env, events, [frame]);
  }

  lemma OneText(env: Env, text: Bytes)
    requires Simple(text) && env.lib.unmarshal(TextJson(text)) == Some(map[CONTENT := JString(text)])
    ensures Valid(Patterns, TextEvent(text))
    ensures Concat(Collapse("", Carried(Decode(env, [TextEvent(text)]), Content, "content"))) == text
  {
    TextEventValid(text);
    TextEventRenders(text);
    var items := Decode(env, [TextEvent(text)]);
    assert [TextEvent(text)][1..] == [];
    assert Kinds[0] == Content;
    assert items == [Decoded(Content, map[CONTENT := JString(text)])] + Decode(env, []);
    assert items[1..] == [];
    var texts := Carried(items, Content, "content");
    assert StringField(items[0].data, "content") == text;
    assert Carried(items[1..], Content, "content") == [];
    assert items[0].kind == Content && "followupPrompt" !in items[0].data;
    assert texts == (if text == "" then [] else [text]) + [];
    if text != "" {
      assert texts[1..] == [];
      assert Concat([text]) == text + Concat<char>([]) by { assert [text][1..] == []; }
    }
  }
}
