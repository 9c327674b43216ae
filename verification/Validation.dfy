/** ValidateMessageRules: the loop with its two sets, and why a sanitized
    conversation can fail it only for an image without a source. */
module Validation {
  import opened Text
  import opened Models
  import opened Conversation
  import opened ToolHistory

  datatype Verdict =
    | Accepted
    | ImageSource
    | CallIdMissing
    | CallNameMissing
    | ResultIdMissing
    | AssistantResult
    | Undeclared(id: string)
    | ToolDeclares

  /** ValidateMessageContent: an image needs data or a URL. */
  predicate Sourced(images: seq<Image>) {
    forall i :: 0 <= i < |images| ==> !Blank(images[i].data) || !Blank(images[i].url)
  }

  function CheckCalls(calls: seq<ToolCall>): Verdict {
    if calls == [] then Accepted
    else if Blank(calls[0].id) then CallIdMissing
    else if Blank(calls[0].name) then CallNameMissing
    else CheckCalls(calls[1..])
  }

  function TrimmedIds(calls: seq<ToolCall>): set<string> {
    set i | 0 <= i < |calls| :: TrimSpace(calls[i].id)
  }

  /** The results of one message against the ids declared and seen so far. */
  function CheckResults(role: Role, declared: set<string>, seen: set<string>, ids: seq<string>): Verdict
    decreases |ids|
  {
    if ids == [] then Accepted
    else
      var id := TrimSpace(ids[0]);
      if id == "" then ResultIdMissing
      else if id in seen then CheckResults(role, declared, seen, ids[1..])
      else if role == Assistant then AssistantResult
      else if id !in declared && role == Tool then Undeclared(id)
      else CheckResults(role, declared, seen + {id}, ids[1..])
  }

  function SeenIds(ids: seq<string>): set<string> {
    set i | 0 <= i < |ids| :: TrimSpace(ids[i])
  }

  function DeclaredWith(declared: set<string>, m: Message): set<string> {
    if m.role == Assistant then declared + TrimmedIds(m.toolCalls) else declared
  }

  /** One message of the loop. */
  function CheckMessage(declared: set<string>, seen: set<string>, m: Message): Verdict {
    if !Sourced(ContentImages(m.content)) then ImageSource
    else if m.role == Assistant && CheckCalls(m.toolCalls) != Accepted then CheckCalls(m.toolCalls)
    else
      var results := CheckResults(m.role, DeclaredWith(declared, m), seen, ContentResultIds(m.content));
      if results != Accepted then results
      else if m.role == Tool && m.toolCalls != [] then ToolDeclares
      else Accepted
  }

  function ValidateFrom(declared: set<string>, seen: set<string>, messages: seq<Message>): Verdict
    decreases |messages|
  {
    if messages == [] then Accepted
    else
      var m := messages[0];
      if CheckMessage(declared, seen, m) != Accepted then CheckMessage(declared, seen, m)
      else ValidateFrom(DeclaredWith(declared, m), seen + SeenIds(ContentResultIds(m.content)), messages[1..])
  }

  function Validate(messages: seq<Message>): Verdict {
    ValidateFrom({}, {}, messages)
  }

  // ---------- the methods ----------

  method DeclareCalls(calls: seq<ToolCall>, before: set<string>) returns (v: Verdict, declared: set<string>)
    ensures v == CheckCalls(calls)
    ensures v == Accepted ==> declared == before + TrimmedIds(calls)
  {
    declared := before;
    var i := 0;
    assert calls[0..] == calls;
    while i < |calls|
      invariant 0 <= i <= |calls|
      invariant CheckCalls(calls) == CheckCalls(calls[i..])
      invariant declared == before + TrimmedIds(calls[..i])
    {
      assert calls[i..][1..] == calls[i + 1..];
      if Blank(calls[i].id) {
        return CallIdMissing, declared;
      }
      if Blank(calls[i].name) {
        return CallNameMissing, declared;
      }
      IdsOfPrefix(calls, i);
      declared := declared + {TrimSpace(calls[i].id)};
      i := i + 1;
    }
    assert calls[..i] == calls;
    return Accepted, declared;
  }

  lemma IdsOfPrefix(calls: seq<ToolCall>, i: nat)
    requires i < |calls|
    ensures TrimmedIds(calls[..i + 1]) == TrimmedIds(calls[..i]) + {TrimSpace(calls[i].id)}
  {
    assert calls[..i + 1][i] == calls[i];
    assert forall k :: 0 <= k < i ==> calls[..i + 1][k] == calls[..i][k];
  }

  method ScanResults(role: Role, declared: set<string>, seen: set<string>, ids: seq<string>)
      returns (v: Verdict, nowSeen: set<string>)
    ensures v == CheckResults(role, declared, seen, ids)
    ensures v == Accepted ==> nowSeen == seen + SeenIds(ids)
  {
    nowSeen := seen;
    var i := 0;
    assert ids[0..] == ids;
    while i < |ids|
      invariant 0 <= i <= |ids|
      invariant CheckResults(role, declared, seen, ids) == CheckResults(role, declared, nowSeen, ids[i..])
      invariant nowSeen == seen + SeenIds(ids[..i])
    {
      assert ids[i..][1..] == ids[i + 1..];
      SeenOfPrefix(ids, i);
      var id := TrimSpace(ids[i]);
      i := i + 1;
      if id == "" {
        return ResultIdMissing, nowSeen;
      }
      if id in nowSeen {
        continue;
      }
      if role == Assistant {
        return AssistantResult, nowSeen;
      }
      if id !in declared && role == Tool {
        return Undeclared(id), nowSeen;
      }
      nowSeen := nowSeen + {id};
    }
    assert ids[..i] == ids;
    return Accepted, nowSeen;
  }

  lemma SeenOfPrefix(ids: seq<string>, i: nat)
    requires i < |ids|
    ensures SeenIds(ids[..i + 1]) == SeenIds(ids[..i]) + {TrimSpace(ids[i])}
  {
    assert ids[..i + 1][i] == ids[i];
    assert forall k :: 0 <= k < i ==> ids[..i + 1][k] == ids[..i][k];
  }

  /** ValidateMessageRules. */
  method ValidateMessageRules(messages: seq<Message>) returns (v: Verdict)
    ensures v == Validate(messages)
  {
    var declaredTools: set<string>, seenToolResults: set<string> := {}, {};
    var i := 0;
    assert messages[0..] == messages;
    while i < |messages|
      invariant 0 <= i <= |messages|
      invariant Validate(messages) == ValidateFrom(declaredTools, seenToolResults, messages[i..])
    {
      assert messages[i..][1..] == messages[i + 1..];
      var m := messages[i];
      if !Sourced(ContentImages(m.content)) {
        return ImageSource;
      }
      if m.role == Assistant {
        var calls, declared := DeclareCalls(m.toolCalls, declaredTools);
        if calls != Accepted {
          return calls;
        }
        declaredTools := declared;
      }
      var results, seen := ScanResults(m.role, declaredTools, seenToolResults, ContentResultIds(m.content));
      if results != Accepted {
        return results;
      }
      if m.role == Tool && m.toolCalls != [] {
        return ToolDeclares;
      }
      seenToolResults := seen;
      i := i + 1;
    }
    return Accepted;
  }

  // ---------- sanitized conversations pass the tool rules ----------

  /** What the codec guarantees about a message before sanitizing: only an
      assistant declares calls, only a tool message (or one demoted from it)
      carries results, all of them for its own id, and no assistant does. */
  ghost predicate Shaped(m: Message) {
    && (m.role != Assistant ==> m.toolCalls == [])
    && (m.role == Assistant ==> ContentResultIds(m.content) == [])
    && (forall i :: 0 <= i < |ContentResultIds(m.content)| ==> !Blank(ContentResultIds(m.content)[i]))
    && (m.role == Tool ==> forall i :: 0 <= i < |ContentResultIds(m.content)| ==>
          TrimSpace(ContentResultIds(m.content)[i]) == TrimSpace(m.toolCallId))
  }

  lemma {:induction false} CleanCallsPass(calls: seq<ToolCall>)
    requires CleanCalls(calls)
    ensures CheckCalls(calls) == Accepted
    decreases |calls|
  {
    if calls != [] {
      TrimmedIsItself(calls[0].id);
      TrimmedIsItself(calls[0].name);
      CleanTail(calls);
      CleanCallsPass(calls[1..]);
    }
  }

  lemma {:induction false} ResultsPass(role: Role, declared: set<string>, seen: set<string>, ids: seq<string>)
    requires role != Assistant
    requires forall i :: 0 <= i < |ids| ==> !Blank(ids[i]) && (role == Tool ==> TrimSpace(ids[i]) in declared)
    ensures CheckResults(role, declared, seen, ids) == Accepted
    decreases |ids|
  {
    if ids != [] {
      assert forall i :: 0 <= i < |ids[1..]| ==> ids[1..][i] == ids[i + 1];
      ResultsPass(role, declared, seen, ids[1..]);
      ResultsPass(role, declared, seen + {TrimSpace(ids[0])}, ids[1..]);
    }
  }

  /** Every image of the conversation has a source. */
  predicate AllSourced(messages: seq<Message>) {
    messages == [] || (Sourced(ContentImages(messages[0].content)) && AllSourced(messages[1..]))
  }

  lemma {:induction false} AllSourcedMeans(messages: seq<Message>)
    ensures AllSourced(messages) <==> forall i :: 0 <= i < |messages| ==> Sourced(ContentImages(messages[i].content))
    decreases |messages|
  {
    if messages != [] {
      AllSourcedMeans(messages[1..]);
      assert forall i :: 0 < i < |messages| ==> messages[i] == messages[1..][i - 1];
      assert forall i :: 0 <= i < |messages[1..]| ==> messages[1..][i] == messages[i + 1];
    }
  }

  lemma SoundHead(history: seq<Message>, messages: seq<Message>)
    requires messages != [] && Sound(history + messages)
    ensures messages[0].role == Assistant ==> CleanCalls(messages[0].toolCalls)
    ensures messages[0].role == Tool ==> Declares(history, TrimSpace(messages[0].toolCallId))
    ensures history + [messages[0]] + messages[1..] == history + messages
  {
    var all := history + messages;
    assert all[|history|] == messages[0] && all[..|history|] == history;
  }

  ghost predicate Covers(declared: set<string>, history: seq<Message>) {
    forall id :: Declares(history, id) ==> id in declared
  }

  lemma CoversMore(declared: set<string>, history: seq<Message>, m: Message)
    requires Covers(declared, history) && (m.role == Assistant ==> CleanCalls(m.toolCalls))
    ensures Covers(DeclaredWith(declared, m), history + [m])
  {
    forall id | Declares(history + [m], id) ensures id in DeclaredWith(declared, m) {
      DeclaresAppend(history, m, id);
      CleanIdsTrimmed(m);
    }
  }

  /** A conversation whose every tool message answers a declared call. */
  lemma {:induction false} SoundPasses(history: seq<Message>, messages: seq<Message>, declared: set<string>, seen: set<string>)
    requires Sound(history + messages) && Covers(declared, history)
    requires forall i :: 0 <= i < |messages| ==> Shaped(messages[i])
    ensures ValidateFrom(declared, seen, messages) == if AllSourced(messages) then Accepted else ImageSource
    decreases |messages|
  {
    if messages != [] {
      var m := messages[0];
      SoundHead(history, messages);
      MessagePasses(history, m, declared, seen);
      CoversMore(declared, history, m);
      SoundPasses(history + [m], messages[1..], DeclaredWith(declared, m), seen + SeenIds(ContentResultIds(m.content)));
    }
  }

  lemma CleanIdsTrimmed(m: Message)
    requires m.role == Assistant ==> CleanCalls(m.toolCalls)
    ensures m.role == Assistant ==> Ids(m.toolCalls) == TrimmedIds(m.toolCalls)
  {
    if m.role == Assistant {
      forall i | 0 <= i < |m.toolCalls| ensures TrimSpace(m.toolCalls[i].id) == m.toolCalls[i].id {
        TrimmedIsItself(m.toolCalls[i].id);
      }
    }
  }

  lemma MessagePasses(history: seq<Message>, m: Message, declared: set<string>, seen: set<string>)
    requires Shaped(m)
    requires m.role == Assistant ==> CleanCalls(m.toolCalls)
    requires m.role == Tool ==> Declares(history, TrimSpace(m.toolCallId))
    requires Covers(declared, history)
    ensures CheckMessage(declared, seen, m) == if Sourced(ContentImages(m.content)) then Accepted else ImageSource
  {
    if m.role == Assistant {
      CleanCallsPass(m.toolCalls);
    } else {
      ResultsPass(m.role, declared, seen, ContentResultIds(m.content));
    }
  }

  lemma JudgeShaped(v: Variant, supply: nat -> string, history: seq<Message>, issued: nat, m: Message)
    requires Shaped(m)
    ensures forall i :: 0 <= i < |Judge(v, supply, history, issued, m)| ==> Shaped(Judge(v, supply, history, issued, m)[i])
  {
  }

  lemma {:induction false} JudgedShaped(v: Variant, supply: nat -> string, messages: seq<Message>)
    requires forall i :: 0 <= i < |messages| ==> Shaped(messages[i])
    ensures forall i :: 0 <= i < |Judged(v, supply, messages)| ==> Shaped(Judged(v, supply, messages)[i])
    decreases |messages|
  {
    if messages != [] {
      var before, m := messages[..|messages| - 1], messages[|messages| - 1];
      JudgedShaped(v, supply, before);
      JudgeShaped(v, supply, Judged(v, supply, before), TakenByAll(before), m);
    }
  }

  /** After sanitizing, a conversation shaped by the codec is accepted, unless an
      image lacks its source; no tool rule can reject it. */
  lemma SanitizedPasses(v: Variant, supply: nat -> string, messages: seq<Message>)
    requires ProperSupply(supply) && forall i :: 0 <= i < |messages| ==> Shaped(messages[i])
    ensures var kept := Sanitize(v, supply, messages);
            Validate(kept) == if forall i :: 0 <= i < |kept| ==> Sourced(ContentImages(kept[i].content)) then Accepted else ImageSource
  {
    SanitizedIsSound(v, supply, messages);
    SanitizeIsJudged(v, supply, messages);
    JudgedShaped(v, supply, messages);
    var kept := Sanitize(v, supply, messages);
    assert [] + kept == kept;
    SoundPasses([], kept, {}, {});
    AllSourcedMeans(kept);
  }
}
