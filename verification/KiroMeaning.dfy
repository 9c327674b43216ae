/** What the collected state means: invariants of every run of the parser, the
    text parts as the content events with repetitions dropped, and when tool
    input sent in fragments is put together again. */
module KiroMeaning {
  import opened Text
  import opened BraceScan
  import opened PatternSplitter
  import opened JsonValues
  import opened KiroParser

  // ---------- invariants of every run ----------

  /** No empty part, no part equal to the one before it, and `last` is the
      newest part. */
  predicate ProperSpeech(s: Speech) {
    && (forall i :: 0 <= i < |s.parts| ==> s.parts[i] != "")
    && (forall i :: 0 < i < |s.parts| ==> s.parts[i] != s.parts[i - 1])
    && s.last == (if s.parts == [] then "" else s.parts[|s.parts| - 1])
  }

  /** The collected calls are pairwise different, with trimmed ids and names. */
  predicate ProperTools(env: Env, t: Tools) {
    && (forall i, j :: 0 <= i < j < |t.calls| ==> !SameCall(env, t.calls[i], t.calls[j]))
    && (forall i :: 0 <= i < |t.calls| ==> Trimmed(t.calls[i].id) && Trimmed(t.calls[i].name))
  }

  predicate Consistent(env: Env, c: Collected) {
    ProperSpeech(c.content) && ProperSpeech(c.thinking) && ProperTools(env, c.tools)
  }

  lemma CallAdded(env: Env, calls: seq<ToolUse>, u: ToolUse)
    requires ProperTools(env, Tools(None, calls, 0)) && Trimmed(u.id) && Trimmed(u.name)
    requires forall i :: 0 <= i < |calls| ==> !SameCall(env, calls[i], u)
    ensures ProperTools(env, Tools(None, calls + [u], 0))
  {
    var grown := calls + [u];
    forall i, j | 0 <= i < j < |grown| ensures !SameCall(env, grown[i], grown[j]) {
      assert grown[i] == calls[i];
    }
  }

  lemma FinalizeKeeps(env: Env, t: Tools)
    requires ProperTools(env, t)
    ensures ProperTools(env, Finalize(env, t))
  {
    if t.current.Some? {
      var u := Completed(env, t.current.value);
      TrimSpaceTrimmed(t.current.value.id);
      TrimSpaceTrimmed(t.current.value.name);
      if forall i :: 0 <= i < |t.calls| ==> !SameCall(env, t.calls[i], u) {
        CallAdded(env, t.calls, u);
      }
    }
  }

  lemma SayKeeps(s: Speech, text: string)
    requires ProperSpeech(s)
    ensures ProperSpeech(Say(s, text))
  {
  }

  lemma StartKeeps(env: Env, t: Tools, data: Fields)
    requires ProperTools(env, t)
    ensures ProperTools(env, StartTool(env, t, data))
  {
    FinalizeKeeps(env, t);
    var begun := Open(env, Finalize(env, t), data);
    assert begun.calls == Finalize(env, t).calls;
    assert ProperTools(env, begun);
    FinalizeKeeps(env, begun);
  }

  lemma ProcessKeeps(env: Env, c: Collected, kind: Kind, data: Fields)
    requires Consistent(env, c)
    ensures Consistent(env, Process(env, c, kind, data))
  {
    match kind
    case Content => SayKeeps(c.content, StringField(data, "content"));
    case Thinking => SayKeeps(c.thinking, StringField(data, "thinking"));
    case ToolStart => StartKeeps(env, c.tools, data);
    case ToolStop => FinalizeKeeps(env, c.tools);
    case ToolInput =>
    case UsageReport =>
    case Followup =>
    case ContextUsage =>
  }

  lemma HandlerKeeps(env: Env, c: Collected, which: nat, text: Bytes)
    requires Consistent(env, c)
    ensures Consistent(env, Handler(env)(c, which, text))
  {
    if which < |Kinds| && env.lib.unmarshal(text).Some? {
      ProcessKeeps(env, c, Kinds[which], env.lib.unmarshal(text).value);
    }
  }

  /** Whatever bytes arrive, in whatever chunks, the collected tool calls are
      pairwise different, no text part repeats its predecessor and the two
      "last" fields tell the truth. */
  lemma {:induction false} DrainKeeps(env: Env, s: ParserView)
    requires Consistent(env, s.got)
    ensures Consistent(env, Drain(Patterns, Handler(env), s).got)
    decreases |s.buffer|
  {
    match NextEvent(Patterns, s.buffer)
    case None =>
    case Some(cut) =>
      HandlerKeeps(env, s.got, cut.which, s.buffer[cut.pos..cut.end + 1]);
      DrainKeeps(env, AfterCut(Handler(env), s, cut));
  }

  lemma {:induction false} EveryRunConsistent(env: Env, s: ParserView, chunks: seq<Bytes>)
    requires Consistent(env, s.got)
    ensures Consistent(env, FeedChunks(env, s, chunks).got)
    ensures ProperTools(env, Finalize(env, FeedChunks(env, s, chunks).got.tools))
    decreases |chunks|
  {
    if chunks == [] {
      FinalizeKeeps(env, s.got.tools);
    } else {
      DrainKeeps(env, State(s.got, s.buffer + chunks[0]));
      EveryRunConsistent(env, FeedParser(env, s, chunks[0]), chunks[1..]);
    }
  }

  // ---------- text parts ----------

  datatype Decoded = Decoded(kind: Kind, data: Fields)

  /** The events that decode, with their fields. */
  function Decode(env: Env, events: seq<Event>): seq<Decoded>
    requires AllValid(Patterns, events)
  {
    if events == [] then []
    else
      assert Valid(Patterns, events[0]);
      (match env.lib.unmarshal(Render(events[0].value))
       case None => []
       case Some(data) => [Decoded(Kinds[events[0].which], data)]) + Decode(env, events[1..])
  }

  function ProcessAll(env: Env, c: Collected, items: seq<Decoded>): Collected
    decreases |items|
  {
    if items == [] then c else ProcessAll(env, Process(env, c, items[0].kind, items[0].data), items[1..])
  }

  /** The texts that the events of one kind carry under one field, in order. */
  function Carried(items: seq<Decoded>, kind: Kind, field: string): seq<string> {
    if items == [] then []
    else
      var item := items[0];
      var text := StringField(item.data, field);
      (if item.kind == kind && text != "" && !(kind == Content && "followupPrompt" in item.data) then [text] else [])
      + Carried(items[1..], kind, field)
  }

  /** A list with every element that repeats its predecessor dropped. */
  function Collapse(last: string, parts: seq<string>): seq<string>
    decreases |parts|
  {
    if parts == [] then []
    else (if parts[0] == last then [] else [parts[0]]) + Collapse(parts[0], parts[1..])
  }

  lemma {:induction false} ApplyAllDecodes(env: Env, c: Collected, events: seq<Event>)
    requires AllValid(Patterns, events)
    ensures ApplyAll(env, c, events) == ProcessAll(env, c, Decode(env, events))
    decreases |events|
  {
    if events != [] {
      assert Valid(Patterns, events[0]);
      ApplyAllDecodes(env, Apply(env, c, Kinds[events[0].which], Render(events[0].value)), events[1..]);
      match env.lib.unmarshal(Render(events[0].value))
      case None => assert [] + Decode(env, events[1..]) == Decode(env, events[1..]);
      case Some(data) =>
        var first := Decoded(Kinds[events[0].which], data);
        assert ([first] + Decode(env, events[1..]))[1..] == Decode(env, events[1..]);
    }
  }

  lemma SayCollapses(s: Speech, text: string)
    ensures var said := if text == "" then [] else [text];
            Say(s, text) == Speech(s.parts + Collapse(s.last, said), if said == [] then s.last else text)
  {
    assert [text][1..] == [];
    assert Collapse(s.last, [text]) == if text == s.last then [] else [text];
    assert s.parts + [] == s.parts;
  }

  /** Says the given texts one after the other. */
  function SayAll(s: Speech, texts: seq<string>): Speech
    decreases |texts|
  {
    if texts == [] then s else SayAll(Say(s, texts[0]), texts[1..])
  }

  lemma CarriedOne(item: Decoded, kind: Kind, field: string)
    ensures var text := StringField(item.data, field);
            Carried([item], kind, field)
            == if item.kind == kind && text != "" && !(kind == Content && "followupPrompt" in item.data) then [text] else []
  {
    assert [item][1..] == [];
    assert Carried([], kind, field) == [];
  }

  lemma {:induction false} SayAllCollapses(s: Speech, texts: seq<string>)
    requires forall i :: 0 <= i < |texts| ==> texts[i] != ""
    ensures SayAll(s, texts).parts == s.parts + Collapse(s.last, texts)
    decreases |texts|
  {
    if texts == [] {
      assert s.parts + [] == s.parts;
    } else {
      var next := Say(s, texts[0]);
      SayCollapses(s, texts[0]);
      assert [texts[0]][1..] == [];
      assert Collapse(s.last, [texts[0]]) == if texts[0] == s.last then [] else [texts[0]];
      SayAllCollapses(next, texts[1..]);
    }
  }

  lemma {:induction false} CarriedNonEmpty(items: seq<Decoded>, kind: Kind, field: string)
    ensures forall i :: 0 <= i < |Carried(items, kind, field)| ==> Carried(items, kind, field)[i] != ""
  {
    if items != [] {
      CarriedNonEmpty(items[1..], kind, field);
    }
  }

  lemma ProcessSays(env: Env, c: Collected, item: Decoded)
    ensures var d := Process(env, c, item.kind, item.data);
            d.content == SayAll(c.content, Carried([item], Content, "content")) &&
            d.thinking == SayAll(c.thinking, Carried([item], Thinking, "thinking"))
  {
    CarriedOne(item, Content, "content");
    CarriedOne(item, Thinking, "thinking");
    var text, thought := StringField(item.data, "content"), StringField(item.data, "thinking");
    SayOne(c.content, text);
    SayOne(c.thinking, thought);
    assert SayAll(c.content, []) == c.content && SayAll(c.thinking, []) == c.thinking;
    match item.kind {
      case Content => case Thinking => case ToolStart => case ToolInput =>
      case ToolStop => case UsageReport => case Followup => case ContextUsage =>
    }
  }

  lemma SayOne(s: Speech, text: string)
    ensures SayAll(s, [text]) == Say(s, text)
  {
    assert [text][1..] == [];
    assert SayAll(Say(s, text), []) == Say(s, text);
  }

  lemma {:induction false} SayAllAppend(s: Speech, a: seq<string>, b: seq<string>)
    ensures SayAll(s, a + b) == SayAll(SayAll(s, a), b)
    decreases |a|
  {
    if a == [] {
      assert a + b == b;
    } else {
      assert (a + b)[1..] == a[1..] + b;
      SayAllAppend(Say(s, a[0]), a[1..], b);
    }
  }

  lemma CarriedSplit(items: seq<Decoded>, kind: Kind, field: string)
    requires items != []
    ensures Carried(items, kind, field) == Carried([items[0]], kind, field) + Carried(items[1..], kind, field)
  {
    CarriedOne(items[0], kind, field);
  }

  lemma {:induction false} RunSays(env: Env, c: Collected, items: seq<Decoded>)
    ensures ProcessAll(env, c, items).content == SayAll(c.content, Carried(items, Content, "content"))
    ensures ProcessAll(env, c, items).thinking == SayAll(c.thinking, Carried(items, Thinking, "thinking"))
    decreases |items|
  {
    if items != [] {
      ProcessSays(env, c, items[0]);
      RunSays(env, Process(env, c, items[0].kind, items[0].data), items[1..]);
      CarriedSplit(items, Content, "content");
      CarriedSplit(items, Thinking, "thinking");
      SayAllAppend(c.content, Carried([items[0]], Content, "content"), Carried(items[1..], Content, "content"));
      SayAllAppend(c.thinking, Carried([items[0]], Thinking, "thinking"), Carried(items[1..], Thinking, "thinking"));
    }
  }

  /** For every list of events, the text parts are the content texts with
      repetitions dropped, and likewise for thinking; no other event adds or
      removes a part. */
  lemma TextIsCollapsedContent(env: Env, c: Collected, items: seq<Decoded>)
    ensures ProcessAll(env, c, items).content.parts
            == c.content.parts + Collapse(c.content.last, Carried(items, Content, "content"))
    ensures ProcessAll(env, c, items).thinking.parts
            == c.thinking.parts + Collapse(c.thinking.last, Carried(items, Thinking, "thinking"))
  {
    RunSays(env, c, items);
    CarriedNonEmpty(items, Content, "content");
    CarriedNonEmpty(items, Thinking, "thinking");
    SayAllCollapses(c.content, Carried(items, Content, "content"));
    SayAllCollapses(c.thinking, Carried(items, Thinking, "thinking"));
  }

  // ---------- tool input in fragments ----------

  /** The arguments after further input events: what has been gathered is
      trimmed before each fragment is appended. */
  function Gather(sofar: string, fragments: seq<string>): string
    decreases |fragments|
  {
    if fragments == [] then sofar else Gather(TrimSpace(sofar) + fragments[0], fragments[1..])
  }

  predicate EndsInSpace(s: string) {
    TailSpace(s) > 0
  }

  /** No cut between fragments has visible text on both sides and whitespace
      just before it. */
  predicate CleanCuts(sofar: string, fragments: seq<string>)
    decreases |fragments|
  {
    fragments == [] ||
    ((Blank(sofar) || Blank(Concat(fragments)) || !EndsInSpace(sofar)) && CleanCuts(TrimSpace(sofar) + fragments[0], fragments[1..]))
  }

  /** Trimming the first half of a text before joining is harmless exactly when
      a half is blank or the first half does not end in white space. */
  lemma TrimJoin(a: string, b: string)
    ensures |TrimSpace(TrimSpace(a) + b)| <= |TrimSpace(a + b)|
    ensures TrimSpace(TrimSpace(a) + b) == TrimSpace(a + b)
            <==> Blank(a) || Blank(b) || !EndsInSpace(a)
    ensures |TrimSpace(TrimSpace(a) + b)| == |TrimSpace(a + b)| ==> TrimSpace(TrimSpace(a) + b) == TrimSpace(a + b)
  {
    BlankMeansSpaces(a);
    BlankMeansSpaces(b);
    if Blank(a) {
      TrimLeftRun(a, b);
      assert TrimSpace(a) + b == b;
    } else if !EndsInSpace(a) {
      NothingAtTheEnd(a, b);
    } else if Blank(b) {
      TrimSpaceRun(a, b);
      TrimSpaceRun(TrimSpace(a), b);
      TrimSpaceTrimmed(a);
    } else {
      SpaceInside(a, b);
    }
  }

  lemma NothingAtTheEnd(a: string, b: string)
    requires !EndsInSpace(a)
    ensures TrimSpace(TrimSpace(a) + b) == TrimSpace(a + b)
  {
    var left := TrimLeft(a);
    TrimLeftProps(a);
    if TailSpace(left) > 0 {
      TailLast(LeftRun(a), left);
    }
    Assoc(LeftRun(a), left, b);
    TrimLeftRun(LeftRun(a), left + b);
  }

  /** Between visible text, white space that is trimmed is missing. */
  lemma SpaceInside(a: string, b: string)
    requires !Spaces(a) && !Spaces(b) && EndsInSpace(a)
    ensures |TrimSpace(TrimSpace(a) + b)| < |TrimSpace(a + b)|
  {
    var left, t, end := TrimLeft(a), TrimSpace(a), TrimRight(b);
    TrimRightProps(b);
    TailKept(a);
    TrimLeftOnto(a, b);
    TrimRightOnto(left, b);
    assert |t| < |left| by {
      TrimRightProps(left[..|left| - TailSpace(left)]);
    }
    Assoc(t, end, RightRun(b));
    TrimSpaceRun(t + end, RightRun(b));
    TrimShorter(t + end);
  }

  /** What is gathered, against the joined text. */
  ghost predicate Gathers(sofar: string, fragments: seq<string>) {
    && |TrimSpace(Gather(sofar, fragments))| <= |TrimSpace(sofar + Concat(fragments))|
    && (TrimSpace(Gather(sofar, fragments)) == TrimSpace(sofar + Concat(fragments)) <==> CleanCuts(sofar, fragments))
  }

  lemma GathersNone(sofar: string)
    ensures Gathers(sofar, [])
  {
    assert sofar + "" == sofar;
  }

  lemma GathersMore(sofar: string, fragments: seq<string>)
    requires fragments != [] && Gathers(TrimSpace(sofar) + fragments[0], fragments[1..])
    ensures Gathers(sofar, fragments)
  {
    var first, rest := fragments[0], Concat(fragments[1..]);
    TrimJoin(sofar, first + rest);
    Assoc(TrimSpace(sofar), first, rest);
  }

  /** Fragments are put together faithfully exactly when every cut is clean. */
  lemma {:induction false} GatherFaithful(sofar: string, fragments: seq<string>)
    ensures Gathers(sofar, fragments)
    decreases |fragments|
  {
    if fragments == [] {
      GathersNone(sofar);
    } else {
      GatherFaithful(TrimSpace(sofar) + fragments[0], fragments[1..]);
      GathersMore(sofar, fragments);
    }
  }

  function InputEvents(fragments: seq<string>): seq<Decoded> {
    if fragments == [] then []
    else [Decoded(ToolInput, map["input" := JString(fragments[0])])] + InputEvents(fragments[1..])
  }

  lemma {:induction false} InputsGather(env: Env, c: Collected, fragments: seq<string>)
    requires c.tools.current.Some?
    ensures var call := c.tools.current.value;
            ProcessAll(env, c, InputEvents(fragments))
            == c.(tools := c.tools.(current := Some(call.(arguments := Gather(call.arguments, fragments)))))
    decreases |fragments|
  {
    if fragments != [] {
      var item := Decoded(ToolInput, map["input" := JString(fragments[0])]);
      var events := InputEvents(fragments);
      assert events[1..] == InputEvents(fragments[1..]);
      InputsGather(env, Process(env, c, item.kind, item.data), fragments[1..]);
    }
  }

  /** A tool call whose input arrives in string fragments is completed with the
      joined, trimmed text as its arguments if and only if every cut is clean. */
  lemma FragmentedToolCall(env: Env, c: Collected, fragments: seq<string>)
    requires c.tools.current.Some?
    ensures var call := c.tools.current.value;
            var gathered := ProcessAll(env, c, InputEvents(fragments)).tools.current;
            gathered.Some? && gathered.value.id == call.id && gathered.value.name == call.name &&
            (TrimSpace(gathered.value.arguments) == TrimSpace(call.arguments + Concat(fragments))
             <==> CleanCuts(call.arguments, fragments))
  {
    InputsGather(env, c, fragments);
    GatherFaithful(c.tools.current.value.arguments, fragments);
  }

  /** A cut after the space of a two-word value loses the space. */
  lemma FragmentLosesSpace()
    ensures !CleanCuts("", ["a ", "b"])
    ensures TrimSpace(Gather("", ["a ", "b"])) == "ab" && TrimSpace("" + Concat(["a ", "b"])) == "a b"
  {
    var fs := ["a ", "b"];
    assert fs[1..] == ["b"] && fs[1..][1..] == [];
    assert Concat(["b"]) == "b" by { assert ["b"][1..] == []; }
    assert Concat(fs) == "a b";
    TrimmedIsItself("a b");
    TrimmedIsItself("ab");
    assert TrimSpace("") + "a " == "a ";
    assert TrimRight("a ") == "a" by {
      assert "a "[..1] == "a";
    }
    assert TrimSpace("a ") == "a";
    assert Gather("", fs) == Gather("a ", ["b"]) == Gather("a" + "b", []);
    assert "a" + "b" == "ab";
    assert CleanCuts("", fs) ==> TrimSpace(Gather("", fs)) == TrimSpace("" + Concat(fs)) by { GatherFaithful("", fs); }
    assert "" + Concat(fs) == "a b";
  }
}
