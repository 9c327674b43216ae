/** Which tool calls come out of a list of events: one for each start, with the
    input that arrives before the next start or the stop. */
module KiroToolCalls {
  import opened Text
  import opened JsonValues
  import opened BraceScan
  import opened PatternSplitter
  import opened KiroParser
  import opened KiroMeaning

  // ---------- the calls that events announce ----------

  predicate Stops(item: Decoded) {
    item.kind == ToolStop && TrueField(item.data, "stop")
  }

  /** The input texts that arrive before the next start or stop. */
  function InputsAfter(env: Env, items: seq<Decoded>): seq<string> {
    if items == [] || items[0].kind == ToolStart || Stops(items[0]) then []
    else (if items[0].kind == ToolInput then [NormalizeToolInput(env, items[0].data)] else []) + InputsAfter(env, items[1..])
  }

  /** The object that an input text decodes to; empty if it does not. */
  function ObjectOfText(env: Env, text: string): Fields {
    if Blank(text) then map[]
    else match env.lib.unmarshal(TrimSpace(text)) case None => map[] case Some(fields) => fields
  }

  function CallWith(id: string, name: string, input: Fields): ToolUse {
    ToolUse(TrimSpace(id), TrimSpace(name), input)
  }

  /** The texts of a call's input: that of its start, and those that arrive later
      unless the start is a stop as well. */
  function InputTexts(env: Env, start: Fields, later: seq<Decoded>): seq<string> {
    [NormalizeToolInput(env, start)] + if TrueField(start, "stop") then [] else InputsAfter(env, later)
  }

  /** One call for each start, in order; `issued` fresh ids were taken before. */
  function Announced(env: Env, items: seq<Decoded>, issued: nat): seq<ToolUse>
    decreases |items|
  {
    if items == [] then []
    else if items[0].kind != ToolStart then Announced(env, items[1..], issued)
    else
      var start := items[0].data;
      var given := StringField(start, "toolUseId");
      var texts := InputTexts(env, start, items[1..]);
      [CallWith(if given == "" then env.freshCallId(issued) else given, StringField(start, "name"),
                ObjectOfText(env, Gather(texts[0], texts[1..])))]
      + Announced(env, items[1..], if given == "" then issued + 1 else issued)
  }

  predicate Repeats(calls: seq<ToolUse>, u: ToolUse) {
    exists i :: 0 <= i < |calls| && calls[i].name == u.name && calls[i].input == u.input
  }

  /** The calls without those that repeat name and input of an earlier one. */
  function Firsts(calls: seq<ToolUse>): seq<ToolUse>
    decreases |calls|
  {
    if calls == [] then []
    else
      var front, last := calls[..|calls| - 1], calls[|calls| - 1];
      Firsts(front) + if Repeats(front, last) then [] else [last]
  }

  lemma {:induction false} FirstsRepeat(calls: seq<ToolUse>, u: ToolUse)
    ensures Repeats(Firsts(calls), u) <==> Repeats(calls, u)
    decreases |calls|
  {
    if calls != [] {
      var front, last := calls[..|calls| - 1], calls[|calls| - 1];
      FirstsRepeat(front, u);
      assert calls == front + [last];
      RepeatsMore(front, last, u);
      if Repeats(front, last) {
        if last.name == u.name && last.input == u.input {
          RepeatsAlike(front, last, u);
        }
        assert Firsts(front) + [] == Firsts(front);
      } else {
        RepeatsMore(Firsts(front), last, u);
      }
    }
  }

  lemma {:induction false} FirstsAmong(calls: seq<ToolUse>)
    ensures forall x :: x in Firsts(calls) ==> x in calls
    decreases |calls|
  {
    if calls != [] {
      FirstsAmong(calls[..|calls| - 1]);
    }
  }

  lemma RepeatsAlike(calls: seq<ToolUse>, a: ToolUse, b: ToolUse)
    requires Repeats(calls, a) && a.name == b.name && a.input == b.input
    ensures Repeats(calls, b)
  {
  }

  lemma RepeatsMore(calls: seq<ToolUse>, last: ToolUse, u: ToolUse)
    ensures Repeats(calls + [last], u) <==> Repeats(calls, u) || (last.name == u.name && last.input == u.input)
  {
    var more := calls + [last];
    assert more[|calls|] == last;
    assert forall i :: 0 <= i < |calls| ==> more[i] == calls[i];
  }

  lemma FirstsMore(calls: seq<ToolUse>, u: ToolUse)
    ensures Firsts(calls + [u]) == Firsts(calls) + if Repeats(calls, u) then [] else [u]
  {
    assert (calls + [u])[..|calls|] == calls;
  }

  // ---------- those come out ----------

  ghost predicate Clean(env: Env, u: ToolUse) {
    Trimmed(u.name) && Carries(env.lib.range, JObject(u.input))
  }

  ghost predicate AllClean(env: Env, calls: seq<ToolUse>) {
    forall u :: u in calls ==> Clean(env, u)
  }

  lemma SameCallIs(env: Env, a: ToolUse, b: ToolUse)
    requires Inverse(env.lib) && Braced(env.lib) && Clean(env, a) && Clean(env, b)
    ensures SameCall(env, a, b) <==> a.name == b.name && a.input == b.input
  {
    TrimmedIsItself(a.name);
    TrimmedIsItself(b.name);
    assert env.lib.unmarshal(env.lib.marshal(JObject(a.input))) == Some(a.input);
    assert env.lib.unmarshal(env.lib.marshal(JObject(b.input))) == Some(b.input);
  }

  lemma CompletedIs(env: Env, call: PendingCall)
    requires Inverse(env.lib) && Braced(env.lib)
    ensures Completed(env, call) == CallWith(call.id, call.name, ObjectOfText(env, call.arguments)) && Clean(env, Completed(env, call))
  {
    TrimSpaceTrimmed(call.name);
    assert env.lib.unmarshal("{}") == Some(map[]);
  }

  function Pending(env: Env, t: Tools): seq<ToolUse> {
    match t.current case None => [] case Some(call) => [CallWith(call.id, call.name, ObjectOfText(env, call.arguments))]
  }

  /** The calls collected so far are those announced, without repetitions. */
  ghost predicate Kept(env: Env, t: Tools, announced: seq<ToolUse>) {
    t.calls == Firsts(announced) && AllClean(env, announced)
  }

  lemma FinalizeAdds(env: Env, t: Tools, announced: seq<ToolUse>)
    requires Inverse(env.lib) && Braced(env.lib) && Kept(env, t, announced)
    ensures Kept(env, Finalize(env, t), announced + Pending(env, t)) && Finalize(env, t).current.None? && Finalize(env, t).issued == t.issued
  {
    match t.current
    case None => assert announced + [] == announced;
    case Some(call) =>
      var u := Completed(env, call);
      CompletedIs(env, call);
      FirstsRepeat(announced, u);
      FirstsAmong(announced);
      forall i | 0 <= i < |t.calls|
        ensures SameCall(env, t.calls[i], u) <==> t.calls[i].name == u.name && t.calls[i].input == u.input
      {
        assert t.calls[i] in announced;
        SameCallIs(env, t.calls[i], u);
      }
      FirstsMore(announced, u);
  }

  /** What is still to come from here on: the open call with its further input,
      and the calls that are announced. */
  function ToCome(env: Env, t: Tools, items: seq<Decoded>): seq<ToolUse> {
    (match t.current
     case None => []
     case Some(call) => [CallWith(call.id, call.name, ObjectOfText(env, Gather(call.arguments, InputsAfter(env, items))))])
    + Announced(env, items, t.issued)
  }

  lemma NoneToCome(env: Env, t: Tools)
    ensures ToCome(env, t, []) == Pending(env, t)
  {
  }

  /** The call of a start alone. */
  function Started(env: Env, start: Fields, issued: nat): ToolUse {
    var given := StringField(start, "toolUseId");
    CallWith(if given == "" then env.freshCallId(issued) else given, StringField(start, "name"), ObjectOfText(env, NormalizeToolInput(env, start)))
  }

  /** The calls that one event completes. */
  function Closed(env: Env, t: Tools, item: Decoded): seq<ToolUse> {
    if item.kind == ToolStart then
      Pending(env, t) + if TrueField(item.data, "stop") then [Started(env, item.data, t.issued)] else []
    else if Stops(item) then Pending(env, t)
    else []
  }

  lemma StartKept(env: Env, t: Tools, start: Fields, announced: seq<ToolUse>)
    requires Inverse(env.lib) && Braced(env.lib) && Kept(env, t, announced)
    ensures Kept(env, StartTool(env, t, start), announced + Closed(env, t, Decoded(ToolStart, start)))
  {
    var begun := Open(env, Finalize(env, t), start);
    var before := announced + Pending(env, t);
    FinalizeAdds(env, t, announced);
    assert Kept(env, begun, before);
    if TrueField(start, "stop") {
      FinalizeAdds(env, begun, before);
      assert Pending(env, begun) == [Started(env, start, t.issued)];
      Assoc(announced, Pending(env, t), Pending(env, begun));
    } else {
      assert Pending(env, t) + [] == Pending(env, t);
    }
  }

  lemma StepKept(env: Env, c: Collected, item: Decoded, announced: seq<ToolUse>)
    requires Inverse(env.lib) && Braced(env.lib) && Kept(env, c.tools, announced)
    ensures Kept(env, Process(env, c, item.kind, item.data).tools, announced + Closed(env, c.tools, item))
  {
    assert announced + [] == announced;
    match item.kind {
      case ToolStart => StartKept(env, c.tools, item.data, announced);
      case ToolStop => FinalizeAdds(env, c.tools, announced);
      case Content => case Thinking => case ToolInput => case UsageReport => case Followup => case ContextUsage =>
    }
  }

  lemma StartToCome(env: Env, t: Tools, start: Fields, rest: seq<Decoded>, announced: seq<ToolUse>)
    requires Inverse(env.lib) && Braced(env.lib) && Kept(env, t, announced)
    ensures ToCome(env, t, [Decoded(ToolStart, start)] + rest)
            == Closed(env, t, Decoded(ToolStart, start)) + ToCome(env, StartTool(env, t, start), rest)
  {
    var items := [Decoded(ToolStart, start)] + rest;
    var begun := Open(env, Finalize(env, t), start);
    FinalizeAdds(env, t, announced);
    PendingFirst(env, t, start, rest);
    if TrueField(start, "stop") {
      FinalizeAdds(env, begun, announced + Pending(env, t));
      StoppedStart(env, start, rest, t.issued);
      Assoc(Pending(env, t), [Started(env, start, t.issued)], Announced(env, rest, begun.issued));
      assert [] + Announced(env, rest, begun.issued) == Announced(env, rest, begun.issued);
    } else {
      OpenStart(env, begun, start, rest, t.issued);
      assert Pending(env, t) + [] == Pending(env, t);
    }
  }

  lemma PendingFirst(env: Env, t: Tools, start: Fields, rest: seq<Decoded>)
    ensures var items := [Decoded(ToolStart, start)] + rest;
            ToCome(env, t, items) == Pending(env, t) + Announced(env, items, t.issued)
  {
    var items := [Decoded(ToolStart, start)] + rest;
    assert items[0].kind == ToolStart;
    assert InputsAfter(env, items) == [];
  }

  lemma StoppedStart(env: Env, start: Fields, rest: seq<Decoded>, issued: nat)
    requires TrueField(start, "stop")
    ensures Announced(env, [Decoded(ToolStart, start)] + rest, issued)
            == [Started(env, start, issued)] + Announced(env, rest, if StringField(start, "toolUseId") == "" then issued + 1 else issued)
  {
    var items := [Decoded(ToolStart, start)] + rest;
    assert items[1..] == rest && InputTexts(env, start, rest)[1..] == [];
  }

  lemma OpenStart(env: Env, begun: Tools, start: Fields, rest: seq<Decoded>, issued: nat)
    requires !TrueField(start, "stop")
    requires var given := StringField(start, "toolUseId");
             begun.current == Some(PendingCall(if given == "" then env.freshCallId(issued) else given, StringField(start, "name"),
                                               NormalizeToolInput(env, start))) &&
             begun.issued == if given == "" then issued + 1 else issued
    ensures Announced(env, [Decoded(ToolStart, start)] + rest, issued) == ToCome(env, begun, rest)
  {
    var items := [Decoded(ToolStart, start)] + rest;
    assert items[1..] == rest && InputTexts(env, start, rest)[1..] == InputsAfter(env, rest);
  }

  lemma StepToCome(env: Env, c: Collected, item: Decoded, rest: seq<Decoded>, announced: seq<ToolUse>)
    requires Inverse(env.lib) && Braced(env.lib) && Kept(env, c.tools, announced)
    ensures ToCome(env, c.tools, [item] + rest)
            == Closed(env, c.tools, item) + ToCome(env, Process(env, c, item.kind, item.data).tools, rest)
  {
    var items, t := [item] + rest, c.tools;
    assert items[1..] == rest;
    if item.kind == ToolStart {
      StartToCome(env, t, item.data, rest, announced);
    } else if Stops(item) {
      FinalizeAdds(env, t, announced);
      assert [] + Announced(env, rest, t.issued) == Announced(env, rest, t.issued);
    } else {
      OtherToCome(env, c, item, rest);
    }
  }

  lemma OtherToCome(env: Env, c: Collected, item: Decoded, rest: seq<Decoded>)
    requires item.kind != ToolStart && !Stops(item)
    ensures ToCome(env, c.tools, [item] + rest) == [] + ToCome(env, Process(env, c, item.kind, item.data).tools, rest)
  {
    var items, t := [item] + rest, c.tools;
    assert items[1..] == rest && items[0] == item;
    assert Announced(env, items, t.issued) == Announced(env, rest, t.issued);
    if item.kind == ToolInput {
      InputToCome(env, t, item.data, rest);
    } else {
      assert InputsAfter(env, items) == [] + InputsAfter(env, rest) == InputsAfter(env, rest);
    }
  }

  lemma InputToCome(env: Env, t: Tools, data: Fields, rest: seq<Decoded>)
    ensures ToCome(env, t, [Decoded(ToolInput, data)] + rest) == [] + ToCome(env, AddInput(env, t, data), rest)
  {
    var items := [Decoded(ToolInput, data)] + rest;
    assert items[1..] == rest;
    if t.current.Some? {
      var text, more := NormalizeToolInput(env, data), InputsAfter(env, rest);
      assert InputsAfter(env, items) == [text] + more;
      assert ([text] + more)[1..] == more;
    }
  }

  /** Whatever events come: the calls that are collected in the end are those that
      were announced, without repetitions, and the open call with its input. */
  lemma {:induction false} RunKept(env: Env, c: Collected, items: seq<Decoded>, announced: seq<ToolUse>)
    requires Inverse(env.lib) && Braced(env.lib) && Kept(env, c.tools, announced)
    ensures Finalize(env, ProcessAll(env, c, items).tools).calls == Firsts(announced + ToCome(env, c.tools, items))
    decreases |items|
  {
    if items == [] {
      NoneToCome(env, c.tools);
      FinalizeAdds(env, c.tools, announced);
    } else {
      var item, rest := items[0], items[1..];
      var next := Process(env, c, item.kind, item.data);
      assert items == [item] + rest;
      StepKept(env, c, item, announced);
      StepToCome(env, c, item, rest, announced);
      RunKept(env, next, rest, announced + Closed(env, c.tools, item));
      Assoc(announced, Closed(env, c.tools, item), ToCome(env, next.tools, rest));
    }
  }

  /** For every list of events: a call for each start, in order, without those that
      repeat an earlier one. */
  lemma CallsComeOut(env: Env, items: seq<Decoded>)
    requires Inverse(env.lib) && Braced(env.lib)
    ensures Finalize(env, ProcessAll(env, Nothing, items).tools).calls == Firsts(Announced(env, items, 0))
  {
    RunKept(env, Nothing, items, []);
    assert [] + ([] + Announced(env, items, 0)) == Announced(env, items, 0);
  }

  // ---------- what the texts of an input decode to ----------

  /** When no cut falls next to white space, the input is decoded from the joined texts. */
  lemma JoinedInput(env: Env, texts: seq<string>)
    requires texts != [] && CleanCuts(texts[0], texts[1..])
    ensures ObjectOfText(env, Gather(texts[0], texts[1..])) == ObjectOfText(env, Concat(texts))
  {
    GatherFaithful(texts[0], texts[1..]);
  }

  /** What is read of an event's fields: a text, a stop that is true, and an input
      that is missing, a text, or anything else in its encoding. */
  lemma FieldsRead(env: Env, data: Fields, key: string)
    ensures StringField(data, key) != "" ==> key in data && data[key] == JString(StringField(data, key))
    ensures forall s :: key in data && data[key] == JString(s) ==> StringField(data, key) == s
    ensures TrueField(data, key) <==> key in data && data[key] == JBool(true)
    ensures NormalizeToolInput(env, data) == "" || ("input" in data && data["input"] == JString(NormalizeToolInput(env, data)))
            || ("input" in data && NormalizeToolInput(env, data) == env.lib.marshal(data["input"]))
    ensures NormalizeToolInput(env, data) == "" ==>
              "input" !in data || data["input"] in [JNull, JString("")] || env.lib.marshal(data["input"]) in ["null", ""]
    ensures NormalizeToolInput(env, data) != "null" || data["input"] == JString("null")
  {
  }

  /** An input that is given as an object arrives as that object. */
  lemma ObjectInput(env: Env, data: Fields, f: Fields)
    requires Inverse(env.lib) && Braced(env.lib) && IgnoresSpace(env.lib)
    requires "input" in data && data["input"] == JObject(f) && Carries(env.lib.range, JObject(f))
    ensures ObjectOfText(env, NormalizeToolInput(env, data)) == f
  {
    var text := env.lib.marshal(JObject(f));
    assert text[0] == '{' && "null"[0] == 'n';
    TrimmedDecodes(env.lib, f);
    BlankMeansSpaces(text);
    assert text[0] in text;
  }

  // ---------- events that are sent for given calls ----------

  /** A call as it is sent: its start, its input in fragments, and a stop unless the
      next start ends it. Input after the stop belongs to no call. */
  datatype Sent = Sent(id: string, name: string, fragments: seq<string>, stopped: bool, stray: seq<string>)

  function EventsFor(s: Sent): seq<Decoded> {
    [Decoded(ToolStart, map["name" := JString(s.name), "toolUseId" := JString(s.id)])] + InputEvents(s.fragments) + StopEvents(s)
  }

  function StopEvents(s: Sent): seq<Decoded> {
    if s.stopped then [Decoded(ToolStop, map["stop" := JBool(true)])] + InputEvents(s.stray) else []
  }

  function AllEvents(sent: seq<Sent>): seq<Decoded> {
    if sent == [] then [] else EventsFor(sent[0]) + AllEvents(sent[1..])
  }

  predicate WellSent(s: Sent) {
    CleanCuts("", s.fragments) && (!s.stopped ==> s.stray == [])
  }

  /** The calls that are meant: each with its id or the next fresh one, its name
      and the object that its joined fragments decode to. */
  function Meant(env: Env, sent: seq<Sent>, issued: nat): seq<ToolUse> {
    if sent == [] then []
    else
      var s := sent[0];
      [CallWith(if s.id == "" then env.freshCallId(issued) else s.id, s.name, ObjectOfText(env, Concat(s.fragments)))]
      + Meant(env, sent[1..], if s.id == "" then issued + 1 else issued)
  }

  lemma {:induction false} InputsThen(env: Env, fragments: seq<string>, rest: seq<Decoded>)
    requires InputsAfter(env, rest) == []
    ensures InputsAfter(env, InputEvents(fragments) + rest) == fragments
    decreases |fragments|
  {
    if fragments == [] {
      assert InputEvents([]) + rest == rest;
    } else {
      var item, more := Decoded(ToolInput, map["input" := JString(fragments[0])]), InputEvents(fragments[1..]);
      InputsThen(env, fragments[1..], rest);
      InputFirst(env, fragments[0], more + rest);
      Assoc([item], more, rest);
    }
  }

  lemma InputFirst(env: Env, text: string, rest: seq<Decoded>)
    ensures InputsAfter(env, [Decoded(ToolInput, map["input" := JString(text)])] + rest) == [text] + InputsAfter(env, rest)
  {
    assert ([Decoded(ToolInput, map["input" := JString(text)])] + rest)[1..] == rest;
  }

  lemma {:induction false} InputsAnnounceNothing(env: Env, fragments: seq<string>, rest: seq<Decoded>, issued: nat)
    ensures Announced(env, InputEvents(fragments) + rest, issued) == Announced(env, rest, issued)
    decreases |fragments|
  {
    if fragments == [] {
      assert InputEvents([]) + rest == rest;
    } else {
      assert (InputEvents(fragments) + rest)[1..] == InputEvents(fragments[1..]) + rest;
      InputsAnnounceNothing(env, fragments[1..], rest, issued);
    }
  }

  lemma StartFields(env: Env, s: Sent)
    ensures var start := map["name" := JString(s.name), "toolUseId" := JString(s.id)];
            && NormalizeToolInput(env, start) == "" && StringField(start, "name") == s.name && StringField(start, "toolUseId") == s.id
            && !TrueField(start, "stop")
  {
  }

  lemma AnnouncedStart(env: Env, start: Fields, fragments: seq<string>, after: seq<Decoded>, issued: nat)
    requires NormalizeToolInput(env, start) == "" && !TrueField(start, "stop")
    requires InputsAfter(env, after) == fragments && CleanCuts("", fragments)
    ensures var given := StringField(start, "toolUseId");
            Announced(env, [Decoded(ToolStart, start)] + after, issued)
            == [CallWith(if given == "" then env.freshCallId(issued) else given, StringField(start, "name"),
                         ObjectOfText(env, Concat(fragments)))]
               + Announced(env, after, if given == "" then issued + 1 else issued)
  {
    assert ([Decoded(ToolStart, start)] + after)[1..] == after;
    assert InputTexts(env, start, after) == [""] + fragments;
    assert ([""] + fragments)[1..] == fragments;
    JoinedInput(env, [""] + fragments);
    assert "" + Concat(fragments) == Concat(fragments);
  }

  /** One call that is sent, whatever start comes next. */
  lemma OneSent(env: Env, s: Sent, rest: seq<Decoded>, issued: nat)
    requires WellSent(s) && (rest == [] || rest[0].kind == ToolStart)
    ensures Announced(env, EventsFor(s) + rest, issued)
            == [CallWith(if s.id == "" then env.freshCallId(issued) else s.id, s.name, ObjectOfText(env, Concat(s.fragments)))]
               + Announced(env, rest, if s.id == "" then issued + 1 else issued)
  {
    var start := map["name" := JString(s.name), "toolUseId" := JString(s.id)];
    var tail := StopEvents(s);
    var next: nat := issued + if s.id == "" then 1 else 0;
    SentParts(s, rest);
    InputsThen(env, s.fragments, tail + rest);
    StartFields(env, s);
    AnnouncedStart(env, start, s.fragments, InputEvents(s.fragments) + (tail + rest), issued);
    InputsAnnounceNothing(env, s.fragments, tail + rest, next);
    StrayIsIgnored(env, s, rest, next);
  }

  lemma SentParts(s: Sent, rest: seq<Decoded>)
    requires WellSent(s) && (rest == [] || rest[0].kind == ToolStart)
    ensures var tail := StopEvents(s);
            && EventsFor(s) + rest
               == [Decoded(ToolStart, map["name" := JString(s.name), "toolUseId" := JString(s.id)])] + (InputEvents(s.fragments) + (tail + rest))
            && (tail + rest == [] || (tail + rest)[0].kind == ToolStart || Stops((tail + rest)[0]))
  {
  }

  lemma StrayIsIgnored(env: Env, s: Sent, rest: seq<Decoded>, issued: nat)
    ensures Announced(env, StopEvents(s) + rest, issued) == Announced(env, rest, issued)
  {
    if s.stopped {
      var stop := Decoded(ToolStop, map["stop" := JBool(true)]);
      assert [stop] + InputEvents(s.stray) + rest == [stop] + (InputEvents(s.stray) + rest);
      assert ([stop] + (InputEvents(s.stray) + rest))[1..] == InputEvents(s.stray) + rest;
      InputsAnnounceNothing(env, s.stray, rest, issued);
    } else {
      assert [] + rest == rest;
    }
  }

  lemma EventsBegin(sent: seq<Sent>)
    ensures AllEvents(sent) == [] || AllEvents(sent)[0].kind == ToolStart
  {
  }

  /** Every call that is sent is announced, in order. */
  lemma {:induction false} SentAnnounced(env: Env, sent: seq<Sent>, issued: nat)
    requires forall k :: 0 <= k < |sent| ==> WellSent(sent[k])
    ensures Announced(env, AllEvents(sent), issued) == Meant(env, sent, issued)
    decreases |sent|
  {
    if sent != [] {
      EventsBegin(sent[1..]);
      OneSent(env, sent[0], AllEvents(sent[1..]), issued);
      SentAnnounced(env, sent[1..], if sent[0].id == "" then issued + 1 else issued);
    }
  }

  function ToolEvents(items: seq<Decoded>): seq<Decoded> {
    if items == [] then []
    else (if items[0].kind in {ToolStart, ToolInput, ToolStop} then [items[0]] else []) + ToolEvents(items[1..])
  }

  /** Text, thinking and reports between them make no difference. */
  lemma {:induction false} OnlyToolEvents(env: Env, items: seq<Decoded>, issued: nat)
    ensures InputsAfter(env, items) == InputsAfter(env, ToolEvents(items))
    ensures Announced(env, items, issued) == Announced(env, ToolEvents(items), issued)
    decreases |items|
  {
    if items != [] {
      var item, rest, kept := items[0], items[1..], ToolEvents(items[1..]);
      OnlyToolEvents(env, rest, issued);
      if item.kind in {ToolStart, ToolInput, ToolStop} {
        assert ToolEvents(items)[0] == item && ToolEvents(items)[1..] == kept;
        if item.kind == ToolStart {
          OnlyToolEvents(env, rest, if StringField(item.data, "toolUseId") == "" then issued + 1 else issued);
        }
      } else {
        assert ToolEvents(items) == [] + kept == kept;
        assert InputsAfter(env, items) == [] + InputsAfter(env, rest) == InputsAfter(env, rest);
      }
    }
  }

  /** For calls that are sent in fragments, among whatever other events: exactly
      those calls come out in order, without those that repeat an earlier one. */
  lemma SentComeOut(env: Env, items: seq<Decoded>, sent: seq<Sent>)
    requires Inverse(env.lib) && Braced(env.lib)
    requires ToolEvents(items) == AllEvents(sent) && forall k :: 0 <= k < |sent| ==> WellSent(sent[k])
    ensures Finalize(env, ProcessAll(env, Nothing, items).tools).calls == Firsts(Meant(env, sent, 0))
  {
    CallsComeOut(env, items);
    OnlyToolEvents(env, items, 0);
    SentAnnounced(env, sent, 0);
  }

  // ---------- usage ----------

  /** A number that some report gives for a key, or for its other spelling. */
  predicate Reported(items: seq<Decoded>, key: string, alternative: string, n: int) {
    exists i :: 0 <= i < |items| && Gives(items[i], key, alternative, n)
  }

  predicate Gives(item: Decoded, key: string, alternative: string, n: int) {
    && item.kind == UsageReport && "usage" in item.data && item.data["usage"].JObject?
    && var fields := item.data["usage"].fields;
       && (key in fields || alternative in fields)
       && var value := if key in fields && fields[key].JNumber? then fields[key] else if alternative in fields then fields[alternative] else JNull;
          value.JNumber? && IsTowardZero(n, value.n)
  }

  /** The whole part: the sign is kept, the rest is cut off. */
  predicate IsTowardZero(n: int, x: real) {
    if x >= 0.0 then n as real <= x < n as real + 1.0 else n as real - 1.0 < x <= n as real
  }

  /** The largest number reported, and zero if there is none above. */
  ghost predicate Largest(items: seq<Decoded>, key: string, alternative: string, n: int) {
    && 0 <= n && (n == 0 || Reported(items, key, alternative, n))
    && forall m :: Reported(items, key, alternative, m) ==> m <= n
  }

  ghost predicate UsageIs(items: seq<Decoded>, u: Usage) {
    && Largest(items, "inputTokens", "input_tokens", u.inputTokens)
    && Largest(items, "outputTokens", "output_tokens", u.outputTokens)
    && Largest(items, "totalTokens", "total_tokens", u.totalTokens)
  }

  lemma TruncateCuts(x: real, n: int)
    ensures IsTowardZero(n, x) <==> n == Truncate(x)
  {
  }

  lemma GivenNumber(item: Decoded, key: string, alternative: string, n: int)
    requires item.kind == UsageReport && "usage" in item.data && item.data["usage"].JObject?
    ensures Gives(item, key, alternative, n) ==> n == NumberField(item.data["usage"].fields, key, alternative)
    ensures NumberField(item.data["usage"].fields, key, alternative) == n != 0 ==> Gives(item, key, alternative, n)
  {
    var fields := item.data["usage"].fields;
    if key in fields && fields[key].JNumber? {
      TruncateCuts(fields[key].n, n);
    } else if alternative in fields && fields[alternative].JNumber? {
      TruncateCuts(fields[alternative].n, n);
    }
  }

  lemma ReportedMore(items: seq<Decoded>, item: Decoded, key: string, alternative: string, n: int)
    ensures Reported(items + [item], key, alternative, n) <==> Reported(items, key, alternative, n) || Gives(item, key, alternative, n)
  {
    var more := items + [item];
    assert more[|items|] == item;
    assert forall i :: 0 <= i < |items| ==> more[i] == items[i];
  }

  lemma LargestMore(items: seq<Decoded>, item: Decoded, key: string, alternative: string, n: int)
    requires Largest(items, key, alternative, n)
    ensures Largest(items + [item], key, alternative,
                    if item.kind == UsageReport && "usage" in item.data && item.data["usage"].JObject?
                    then Max(n, NumberField(item.data["usage"].fields, key, alternative)) else n)
  {
    var report := item.kind == UsageReport && "usage" in item.data && item.data["usage"].JObject?;
    var given := if report then NumberField(item.data["usage"].fields, key, alternative) else 0;
    if report {
      GivenNumber(item, key, alternative, given);
    }
    ReportedMore(items, item, key, alternative, n);
    ReportedMore(items, item, key, alternative, given);
    forall m | Reported(items + [item], key, alternative, m) ensures m <= Max(n, given) {
      ReportedMore(items, item, key, alternative, m);
      if report {
        GivenNumber(item, key, alternative, m);
      }
    }
  }

  lemma StepReports(env: Env, c: Collected, before: seq<Decoded>, item: Decoded)
    requires UsageIs(before, c.usage)
    ensures UsageIs(before + [item], Process(env, c, item.kind, item.data).usage)
  {
    LargestMore(before, item, "inputTokens", "input_tokens", c.usage.inputTokens);
    LargestMore(before, item, "outputTokens", "output_tokens", c.usage.outputTokens);
    LargestMore(before, item, "totalTokens", "total_tokens", c.usage.totalTokens);
  }

  lemma {:induction false} RunReports(env: Env, c: Collected, before: seq<Decoded>, items: seq<Decoded>)
    requires UsageIs(before, c.usage)
    ensures UsageIs(before + items, ProcessAll(env, c, items).usage)
    decreases |items|
  {
    if items == [] {
      assert before + items == before;
    } else {
      StepReports(env, c, before, items[0]);
      RunReports(env, Process(env, c, items[0].kind, items[0].data), before + [items[0]], items[1..]);
      assert before + [items[0]] + items[1..] == before + items;
    }
  }

  /** The usage that is collected: of every count, the largest number reported. */
  lemma LargestReported(env: Env, items: seq<Decoded>)
    ensures UsageIs(items, ProcessAll(env, Nothing, items).usage)
  {
    RunReports(env, Nothing, [], items);
    assert [] + items == items;
  }
}
