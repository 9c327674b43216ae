/** sanitizeToolHistory in its two variants: a loop over sets of declared and
    answered ids, and the definition it amounts to, which looks at the history
    already kept. */
module ToolHistory {
  import opened Text
  import opened Models
  import opened Conversation

  /** The variant of the Anthropic codec keeps an assistant message for its
      thinking blocks; the one of the OpenAI codec does not. */
  datatype Variant = AnthropicCodec | OpenAICodec

  /** Fresh ids come from a supply of trimmed texts. */
  ghost predicate ProperSupply(supply: nat -> string) {
    forall n: nat :: Trimmed(supply(n))
  }

  function FreshId(supply: nat -> string, n: nat): string {
    "toolu_" + supply(n)
  }

  // ---------- one assistant message ----------

  function CleanCall(supply: nat -> string, call: ToolCall, issued: nat): ToolCall {
    ToolCall(if Blank(call.id) then FreshId(supply, issued) else TrimSpace(call.id), TrimSpace(call.name),
             if Blank(call.arguments) then "{}" else call.arguments)
  }

  function Taken(call: ToolCall): nat {
    if !Blank(call.name) && Blank(call.id) then 1 else 0
  }

  function TakenBy(calls: seq<ToolCall>): nat {
    if calls == [] then 0 else Taken(calls[0]) + TakenBy(calls[1..])
  }

  function Ids(calls: seq<ToolCall>): set<string> {
    set i | 0 <= i < |calls| :: calls[i].id
  }

  /** What one call adds to the calls kept so far. */
  function TakeOne(supply: nat -> string, call: ToolCall, seen: set<string>, issued: nat): seq<ToolCall> {
    var clean := CleanCall(supply, call, issued);
    if clean.name == "" || clean.id in seen then [] else [clean]
  }

  /** Calls with a name, cleaned, the first of each id. */
  function FilterCalls(supply: nat -> string, calls: seq<ToolCall>, seen: set<string>, issued: nat): seq<ToolCall>
    decreases |calls|
  {
    if calls == [] then []
    else
      var one := TakeOne(supply, calls[0], seen, issued);
      one + FilterCalls(supply, calls[1..], seen + Ids(one), issued + Taken(calls[0]))
  }

  // ---------- the loop over messages, as a function of its sets ----------

  datatype Seen = Seen(declared: set<string>, answered: set<string>, issued: nat)

  const NothingSeen := Seen({}, {}, 0)

  datatype Step = Step(seen: Seen, kept: seq<Message>)

  function Demoted(m: Message): Message {
    m.(role := User, toolCallId := "")
  }

  predicate WorthKeeping(v: Variant, m: Message, calls: seq<ToolCall>) {
    calls != [] || !Blank(ContentText(m.content)) || (v == AnthropicCodec && m.thinkingBlocks != [])
  }

  function SanitizeMessage(v: Variant, supply: nat -> string, s: Seen, m: Message): Step {
    if m.role == Assistant && m.toolCalls != [] then
      var calls := FilterCalls(supply, m.toolCalls, {}, s.issued);
      Step(Seen(s.declared + Ids(calls), s.answered, s.issued + TakenBy(m.toolCalls)),
           if WorthKeeping(v, m, calls) then [m.(toolCalls := calls)] else [])
    else if m.role == Tool then
      var id := TrimSpace(m.toolCallId);
      if id == "" || id !in s.declared then Step(s, if Blank(ContentText(m.content)) then [] else [Demoted(m)])
      else if id in s.answered then Step(s, [])
      else Step(s.(answered := s.answered + {id}), [m])
    else Step(s, [m])
  }

  function SanitizeFrom(v: Variant, supply: nat -> string, s: Seen, messages: seq<Message>): seq<Message>
    decreases |messages|
  {
    if messages == [] then []
    else
      var step := SanitizeMessage(v, supply, s, messages[0]);
      step.kept + SanitizeFrom(v, supply, step.seen, messages[1..])
  }

  function Sanitize(v: Variant, supply: nat -> string, messages: seq<Message>): seq<Message> {
    SanitizeFrom(v, supply, NothingSeen, messages)
  }

  // ---------- the methods ----------

  lemma KeptIds(filtered: seq<ToolCall>, kept: seq<ToolCall>)
    requires |kept| <= 1
    ensures Ids(filtered + kept) == Ids(filtered) + Ids(kept)
  {
    if kept == [] {
      assert filtered + kept == filtered;
    } else {
      IdsGrow(filtered, kept[0]);
      assert filtered + kept == filtered + [kept[0]];
      assert Ids(kept) == {kept[0].id};
    }
  }

  lemma TakenNext(calls: seq<ToolCall>, i: nat)
    requires i < |calls|
    ensures TakenBy(calls[i..]) == Taken(calls[i]) + TakenBy(calls[i + 1..])
  {
    assert calls[i..][1..] == calls[i + 1..];
  }

  method TakeCall(supply: nat -> string, call: ToolCall, seen: set<string>, start: nat) returns (kept: seq<ToolCall>, issued: nat)
    ensures kept == TakeOne(supply, call, seen, start) && issued == start + Taken(call)
  {
    kept, issued := [], start;
    var name := TrimSpace(call.name);
    if name != "" {
      var id := TrimSpace(call.id);
      if id == "" {
        id := FreshId(supply, issued);
        issued := issued + 1;
      }
      if id !in seen {
        kept := [ToolCall(id, name, if Blank(call.arguments) then "{}" else call.arguments)];
      }
    }
  }

  /** The filter as a value. */
  function FilterBy(supply: nat -> string): (seq<ToolCall>, set<string>, nat) -> seq<ToolCall> {
    (calls: seq<ToolCall>, seen: set<string>, issued: nat) => FilterCalls(supply, calls, seen, issued)
  }

  /** What the loop ends with when these calls are left. */
  function Filtering(filter: (seq<ToolCall>, set<string>, nat) -> seq<ToolCall>, filtered: seq<ToolCall>, left: seq<ToolCall>,
                     seen: set<string>, issued: nat): (seq<ToolCall>, nat) {
    (filtered + filter(left, seen, issued), issued + TakenBy(left))
  }

  lemma FilteringStep(filter: (seq<ToolCall>, set<string>, nat) -> seq<ToolCall>, filtered: seq<ToolCall>, one: seq<ToolCall>,
                      left: seq<ToolCall>, rest: seq<ToolCall>, seen: set<string>, after: set<string>, issued: nat, taken: nat)
    requires filter(left, seen, issued) == one + filter(rest, after, issued + taken) && TakenBy(left) == taken + TakenBy(rest)
    ensures Filtering(filter, filtered, left, seen, issued) == Filtering(filter, filtered + one, rest, after, issued + taken)
  {
    Assoc(filtered, one, filter(rest, after, issued + taken));
  }

  lemma TakeAt(supply: nat -> string, calls: seq<ToolCall>, i: nat, seen: set<string>, issued: nat)
    requires i < |calls|
    ensures var one := TakeOne(supply, calls[i], seen, issued);
            FilterBy(supply)(calls[i..], seen, issued) == one + FilterBy(supply)(calls[i + 1..], seen + Ids(one), issued + Taken(calls[i]))
  {
    assert calls[i..][1..] == calls[i + 1..];
  }

  /** The call at position i; what the loop ends with stays the same. */
  method FilterOne(supply: nat -> string, kept: seq<ToolCall>, calls: seq<ToolCall>, i: nat, seen: set<string>, start: nat,
                   ghost goal: (seq<ToolCall>, nat))
      returns (filtered: seq<ToolCall>, declared: set<string>, issued: nat)
    requires i < |calls| && seen == Ids(kept) && Filtering(FilterBy(supply), kept, calls[i..], seen, start) == goal
    ensures declared == Ids(filtered) && Filtering(FilterBy(supply), filtered, calls[i + 1..], declared, issued) == goal
  {
    TakeAt(supply, calls, i, seen, start);
    TakenNext(calls, i);
    var one, after := TakeCall(supply, calls[i], seen, start);
    FilteringStep(FilterBy(supply), kept, one, calls[i..], calls[i + 1..], seen, seen + Ids(one), start, Taken(calls[i]));
    KeptIds(kept, one);
    filtered, declared, issued := kept + one, seen + Ids(one), after;
  }

  method FilterToolCalls(supply: nat -> string, calls: seq<ToolCall>, start: nat)
      returns (filtered: seq<ToolCall>, declared: set<string>, issued: nat)
    ensures filtered == FilterCalls(supply, calls, {}, start)
    ensures declared == Ids(filtered)
    ensures issued == start + TakenBy(calls)
  {
    filtered, declared, issued := [], {}, start;
    var i := 0;
    assert calls[0..] == calls;
    ghost var goal := Filtering(FilterBy(supply), [], calls, {}, start);
    FilteringStarts(supply, calls, start);
    while i < |calls|
      invariant 0 <= i <= |calls|
      invariant Filtering(FilterBy(supply), filtered, calls[i..], declared, issued) == goal
      invariant declared == Ids(filtered)
    {
      filtered, declared, issued := FilterOne(supply, filtered, calls, i, declared, issued, goal);
      i := i + 1;
    }
    assert filtered + [] == filtered;
  }

  lemma Nothing(calls: seq<ToolCall>)
    ensures [] + calls == calls
  {
  }

  lemma FilteringStarts(supply: nat -> string, calls: seq<ToolCall>, start: nat)
    ensures Filtering(FilterBy(supply), [], calls, {}, start) == (FilterCalls(supply, calls, {}, start), start + TakenBy(calls))
  {
    Nothing(FilterCalls(supply, calls, {}, start));
  }

  lemma IdsGrow(calls: seq<ToolCall>, call: ToolCall)
    ensures Ids(calls + [call]) == Ids(calls) + {call.id}
  {
    var all := calls + [call];
    assert all[|calls|] == call;
    assert forall i :: 0 <= i < |calls| ==> all[i] == calls[i];
  }

  /** The body of the loop of sanitizeToolHistory for one message. */
  method SanitizeOne(v: Variant, supply: nat -> string, s: Seen, current: Message) returns (step: Step)
    ensures step == SanitizeMessage(v, supply, s, current)
  {
    if current.role == Assistant && current.toolCalls != [] {
      var calls, ids, issued := FilterToolCalls(supply, current.toolCalls, s.issued);
      var seen := Seen(s.declared + ids, s.answered, issued);
      if calls == [] && Blank(ContentText(current.content)) && (v == OpenAICodec || current.thinkingBlocks == []) {
        return Step(seen, []);
      }
      return Step(seen, [current.(toolCalls := calls)]);
    }
    if current.role == Tool {
      var id := TrimSpace(current.toolCallId);
      if id == "" || id !in s.declared {
        if Blank(ContentText(current.content)) {
          return Step(s, []);
        }
        return Step(s, [current.(role := User, toolCallId := "")]);
      }
      if id in s.answered {
        return Step(s, []);
      }
      return Step(s.(answered := s.answered + {id}), [current]);
    }
    return Step(s, [current]);
  }

  /** sanitizeToolHistory. */
  method SanitizeToolHistory(v: Variant, supply: nat -> string, messages: seq<Message>) returns (sanitized: seq<Message>)
    ensures sanitized == Sanitize(v, supply, messages)
  {
    sanitized := [];
    var seen := NothingSeen;
    var i := 0;
    assert messages[0..] == messages;
    while i < |messages|
      invariant 0 <= i <= |messages|
      invariant Sanitize(v, supply, messages) == sanitized + SanitizeFrom(v, supply, seen, messages[i..])
    {
      var step := SanitizeOne(v, supply, seen, messages[i]);
      SanitizeNext(v, supply, sanitized, seen, messages, i);
      seen := step.seen;
      sanitized := sanitized + step.kept;
      i := i + 1;
    }
    assert sanitized + [] == sanitized;
  }

  lemma SanitizeNext(v: Variant, supply: nat -> string, sanitized: seq<Message>, seen: Seen, messages: seq<Message>, i: nat)
    requires i < |messages|
    ensures var step := SanitizeMessage(v, supply, seen, messages[i]);
            sanitized + SanitizeFrom(v, supply, seen, messages[i..])
            == sanitized + step.kept + SanitizeFrom(v, supply, step.seen, messages[i + 1..])
  {
    var step := SanitizeMessage(v, supply, seen, messages[i]);
    assert messages[i..][1..] == messages[i + 1..];
    Assoc(sanitized, step.kept, SanitizeFrom(v, supply, step.seen, messages[i + 1..]));
  }

  // ---------- the declarative reading ----------

  /** Some surviving assistant message of the history declares the id. */
  ghost predicate Declares(history: seq<Message>, id: string) {
    exists i, j :: 0 <= i < |history| && history[i].role == Assistant && 0 <= j < |history[i].toolCalls| && history[i].toolCalls[j].id == id
  }

  /** Some surviving tool message of the history answers the id. */
  ghost predicate Answers(history: seq<Message>, id: string) {
    exists i :: 0 <= i < |history| && history[i].role == Tool && TrimSpace(history[i].toolCallId) == id
  }

  /** What becomes of a message, judged by the history already kept. */
  ghost function Judge(v: Variant, supply: nat -> string, history: seq<Message>, issued: nat, m: Message): seq<Message> {
    if m.role == Assistant && m.toolCalls != [] then
      var calls := FilterCalls(supply, m.toolCalls, {}, issued);
      if WorthKeeping(v, m, calls) then [m.(toolCalls := calls)] else []
    else if m.role == Tool then
      var id := TrimSpace(m.toolCallId);
      if id == "" || !Declares(history, id) then (if Blank(ContentText(m.content)) then [] else [Demoted(m)])
      else if Answers(history, id) then []
      else [m]
    else [m]
  }

  function TakenByAll(messages: seq<Message>): nat {
    if messages == [] then 0
    else
      var m := messages[|messages| - 1];
      TakenByAll(messages[..|messages| - 1]) + if m.role == Assistant then TakenBy(m.toolCalls) else 0
  }

  /** The history kept of a conversation, message by message. */
  ghost function Judged(v: Variant, supply: nat -> string, messages: seq<Message>): seq<Message> {
    if messages == [] then []
    else
      var before := messages[..|messages| - 1];
      var history := Judged(v, supply, before);
      history + Judge(v, supply, history, TakenByAll(before), messages[|messages| - 1])
  }

  /** The sets of the loop are exactly what the kept history declares and
      answers. */
  ghost predicate Reflects(s: Seen, history: seq<Message>) {
    && (forall id :: id in s.declared <==> Declares(history, id))
    && (forall id :: id in s.answered <==> Answers(history, id))
  }

  lemma DeclaresAppend(history: seq<Message>, m: Message, id: string)
    ensures Declares(history + [m], id)
            <==> Declares(history, id) || (m.role == Assistant && id in Ids(m.toolCalls))
  {
    var all := history + [m];
    if Declares(all, id) {
      var i, j :| 0 <= i < |all| && all[i].role == Assistant && 0 <= j < |all[i].toolCalls| && all[i].toolCalls[j].id == id;
      if i < |history| {
        assert history[i] == all[i];
      }
    }
    if Declares(history, id) {
      var i, j :| 0 <= i < |history| && history[i].role == Assistant && 0 <= j < |history[i].toolCalls| && history[i].toolCalls[j].id == id;
      assert all[i] == history[i];
    }
    if m.role == Assistant && id in Ids(m.toolCalls) {
      var j :| 0 <= j < |m.toolCalls| && m.toolCalls[j].id == id;
      assert all[|history|] == m;
    }
  }

  lemma AnswersAppend(history: seq<Message>, m: Message, id: string)
    ensures Answers(history + [m], id)
            <==> Answers(history, id) || (m.role == Tool && TrimSpace(m.toolCallId) == id)
  {
    var all := history + [m];
    assert all[|history|] == m;
    assert forall i :: 0 <= i < |history| ==> all[i] == history[i];
  }

  lemma StepReflects(v: Variant, supply: nat -> string, s: Seen, history: seq<Message>, m: Message)
    requires Reflects(s, history)
    ensures var step := SanitizeMessage(v, supply, s, m);
            step.kept == Judge(v, supply, history, s.issued, m) && |step.kept| <= 1 && Reflects(step.seen, history + step.kept)
  {
    var step := SanitizeMessage(v, supply, s, m);
    if step.kept == [] {
      assert history + step.kept == history;
    } else {
      forall id
        ensures id in step.seen.declared <==> Declares(history + step.kept, id)
        ensures id in step.seen.answered <==> Answers(history + step.kept, id)
      {
        DeclaresAppend(history, step.kept[0], id);
        AnswersAppend(history, step.kept[0], id);
        assert history + step.kept == history + [step.kept[0]];
      }
    }
  }

  lemma {:induction false} SanitizeLast(v: Variant, supply: nat -> string, s: Seen, messages: seq<Message>, m: Message)
    ensures SanitizeFrom(v, supply, s, messages + [m])
            == SanitizeFrom(v, supply, s, messages) + SanitizeMessage(v, supply, SeenFrom(v, supply, s, messages), m).kept
    decreases |messages|
  {
    if messages == [] {
      assert [] + [m] == [m] && |[m][1..]| == 0;
      var step := SanitizeMessage(v, supply, s, m);
      assert step.kept + [] == step.kept == [] + step.kept;
    } else {
      assert (messages + [m])[1..] == messages[1..] + [m];
      var step := SanitizeMessage(v, supply, s, messages[0]);
      SanitizeLast(v, supply, step.seen, messages[1..], m);
      Assoc(step.kept, SanitizeFrom(v, supply, step.seen, messages[1..]),
            SanitizeMessage(v, supply, SeenFrom(v, supply, step.seen, messages[1..]), m).kept);
    }
  }

  /** Where the loop stands after some messages. */
  function SeenFrom(v: Variant, supply: nat -> string, s: Seen, messages: seq<Message>): Seen
    decreases |messages|
  {
    if messages == [] then s else SeenFrom(v, supply, SanitizeMessage(v, supply, s, messages[0]).seen, messages[1..])
  }

  lemma {:induction false} SeenLast(v: Variant, supply: nat -> string, s: Seen, messages: seq<Message>, m: Message)
    ensures SeenFrom(v, supply, s, messages + [m]) == SanitizeMessage(v, supply, SeenFrom(v, supply, s, messages), m).seen
    decreases |messages|
  {
    if messages == [] {
      assert [] + [m] == [m] && |[m][1..]| == 0;
    } else {
      assert (messages + [m])[1..] == messages[1..] + [m];
      SeenLast(v, supply, SanitizeMessage(v, supply, s, messages[0]).seen, messages[1..], m);
    }
  }

  /** The loop and the definition agree, and the loop's sets reflect what is kept. */
  ghost predicate Agrees(v: Variant, supply: nat -> string, messages: seq<Message>) {
    && Sanitize(v, supply, messages) == Judged(v, supply, messages)
    && Reflects(SeenFrom(v, supply, NothingSeen, messages), Sanitize(v, supply, messages))
    && SeenFrom(v, supply, NothingSeen, messages).issued == TakenByAll(messages)
  }

  lemma AgreesNext(v: Variant, supply: nat -> string, before: seq<Message>, m: Message)
    requires Agrees(v, supply, before)
    ensures Agrees(v, supply, before + [m])
  {
    assert (before + [m])[..|before + [m]| - 1] == before;
    SanitizeLast(v, supply, NothingSeen, before, m);
    SeenLast(v, supply, NothingSeen, before, m);
    StepReflects(v, supply, SeenFrom(v, supply, NothingSeen, before), Sanitize(v, supply, before), m);
  }

  lemma AgreesFirst(v: Variant, supply: nat -> string)
    ensures Agrees(v, supply, [])
  {
  }

  /** The loop over sets refines the definition that looks at the kept history:
      a tool result survives as a tool message exactly when an earlier surviving
      call declares its id and no earlier surviving result answers it. */
  lemma {:induction false} SanitizeIsJudged(v: Variant, supply: nat -> string, messages: seq<Message>)
    ensures Agrees(v, supply, messages)
    decreases |messages|
  {
    if messages == [] {
      AgreesFirst(v, supply);
    } else {
      var before, m := messages[..|messages| - 1], messages[|messages| - 1];
      assert messages == before + [m];
      SanitizeIsJudged(v, supply, before);
      AgreesNext(v, supply, before, m);
    }
  }

  // ---------- what a sanitized conversation looks like ----------

  predicate CleanOne(call: ToolCall) {
    call.id != "" && Trimmed(call.id) && call.name != "" && Trimmed(call.name) && !Blank(call.arguments)
  }

  predicate CleanCalls(calls: seq<ToolCall>) {
    && (forall i :: 0 <= i < |calls| ==> CleanOne(calls[i]))
    && (forall i, j :: 0 <= i < j < |calls| ==> calls[i].id != calls[j].id)
  }

  /** Every call is clean and every tool message answers an id declared before
      it and not answered before it. */
  ghost predicate Sound(history: seq<Message>) {
    && (forall i :: 0 <= i < |history| && history[i].role == Assistant ==> CleanCalls(history[i].toolCalls))
    && (forall i :: 0 <= i < |history| && history[i].role == Tool ==>
          var id := TrimSpace(history[i].toolCallId);
          id != "" && Declares(history[..i], id) && !Answers(history[..i], id))
  }

  lemma CleanedCall(supply: nat -> string, call: ToolCall, issued: nat)
    requires ProperSupply(supply) && !Blank(call.name)
    ensures CleanOne(CleanCall(supply, call, issued))
  {
    TrimSpaceTrimmed(call.id);
    TrimSpaceTrimmed(call.name);
    assert Trimmed(supply(issued));
    TrimmedIsItself("{}");
  }

  /** Clean calls whose ids are not among `seen`. */
  ghost predicate CleanBeyond(calls: seq<ToolCall>, seen: set<string>) {
    CleanCalls(calls) && forall i :: 0 <= i < |calls| ==> calls[i].id !in seen
  }

  lemma CleanJoin(one: seq<ToolCall>, rest: seq<ToolCall>, seen: set<string>)
    requires |one| <= 1 && CleanBeyond(one, seen) && CleanBeyond(rest, seen + Ids(one))
    ensures CleanBeyond(one + rest, seen)
  {
    if one == [] {
      assert one + rest == rest;
    } else {
      assert one[0].id in Ids(one);
    }
  }

  lemma CleanOnly(supply: nat -> string, call: ToolCall, seen: set<string>, issued: nat)
    requires ProperSupply(supply)
    ensures var one := TakeOne(supply, call, seen, issued); |one| <= 1 && CleanBeyond(one, seen)
  {
    if !Blank(call.name) {
      CleanedCall(supply, call, issued);
    }
  }

  lemma {:induction false} FilterClean(supply: nat -> string, calls: seq<ToolCall>, seen: set<string>, issued: nat)
    requires ProperSupply(supply)
    ensures CleanBeyond(FilterCalls(supply, calls, seen, issued), seen)
    decreases |calls|
  {
    if calls != [] {
      var one := TakeOne(supply, calls[0], seen, issued);
      FilterClean(supply, calls[1..], seen + Ids(one), issued + Taken(calls[0]));
      CleanOnly(supply, calls[0], seen, issued);
      CleanJoin(one, FilterCalls(supply, calls[1..], seen + Ids(one), issued + Taken(calls[0])), seen);
    }
  }

  lemma SoundGrows(history: seq<Message>, m: Message)
    requires Sound(history)
    requires m.role == Assistant ==> CleanCalls(m.toolCalls)
    requires m.role == Tool ==> var id := TrimSpace(m.toolCallId); id != "" && Declares(history, id) && !Answers(history, id)
    ensures Sound(history + [m])
  {
    var all := history + [m];
    forall i | 0 <= i < |all|
      ensures all[..i] == (if i < |history| then history[..i] else history)
    {
    }
  }

  /** For both variants: the surviving conversation is sound. */
  lemma {:induction false} SanitizedIsSound(v: Variant, supply: nat -> string, messages: seq<Message>)
    requires ProperSupply(supply)
    ensures Sound(Sanitize(v, supply, messages))
    decreases |messages|
  {
    SanitizeIsJudged(v, supply, messages);
    if messages != [] {
      var before, m := messages[..|messages| - 1], messages[|messages| - 1];
      SanitizedIsSound(v, supply, before);
      SanitizeIsJudged(v, supply, before);
      JudgedIsSound(v, supply, Judged(v, supply, before), TakenByAll(before), m);
    }
  }

  lemma JudgedIsSound(v: Variant, supply: nat -> string, history: seq<Message>, issued: nat, m: Message)
    requires ProperSupply(supply) && Sound(history)
    ensures Sound(history + Judge(v, supply, history, issued, m))
  {
    var kept := Judge(v, supply, history, issued, m);
    if kept == [] {
      assert history + kept == history;
    } else {
      if m.role == Assistant && m.toolCalls != [] {
        FilterClean(supply, m.toolCalls, {}, issued);
      }
      SoundGrows(history, kept[0]);
    }
  }

  // ---------- idempotence ----------

  lemma CleanStays(supply: nat -> string, call: ToolCall, issued: nat)
    requires CleanOne(call)
    ensures CleanCall(supply, call, issued) == call && Taken(call) == 0
  {
    TrimmedIsItself(call.id);
    TrimmedIsItself(call.name);
  }

  lemma CleanTail(calls: seq<ToolCall>)
    requires calls != [] && CleanCalls(calls)
    ensures CleanOne(calls[0]) && CleanCalls(calls[1..])
    ensures forall i :: 0 <= i < |calls[1..]| ==> calls[1..][i].id != calls[0].id && calls[1..][i] == calls[i + 1]
  {
  }

  lemma TakesClean(supply: nat -> string, call: ToolCall, seen: set<string>, issued: nat)
    requires CleanOne(call) && call.id !in seen
    ensures TakeOne(supply, call, seen, issued) == [call] && Ids([call]) == {call.id} && Taken(call) == 0
  {
    CleanStays(supply, call, issued);
    assert [call][0] == call;
  }

  lemma {:induction false} FilterKeepsClean(supply: nat -> string, calls: seq<ToolCall>, seen: set<string>, issued: nat)
    requires CleanCalls(calls) && Ids(calls) !! seen
    ensures FilterCalls(supply, calls, seen, issued) == calls
    decreases |calls|
  {
    if calls != [] {
      CleanTail(calls);
      RestApart(calls, seen);
      FilterKeepsClean(supply, calls[1..], seen + Ids([calls[0]]), issued + Taken(calls[0]));
      FirstKept(supply, calls, seen, issued);
    }
  }

  lemma RestApart(calls: seq<ToolCall>, seen: set<string>)
    requires calls != [] && CleanCalls(calls) && Ids(calls) !! seen
    ensures calls[0].id !in seen && Ids(calls[1..]) !! seen + Ids([calls[0]])
  {
    IdsTail(calls);
    assert [calls[0]][0] == calls[0];
    assert Ids([calls[0]]) == {calls[0].id};
  }

  lemma FirstKept(supply: nat -> string, calls: seq<ToolCall>, seen: set<string>, issued: nat)
    requires calls != [] && CleanOne(calls[0]) && calls[0].id !in seen
    requires FilterCalls(supply, calls[1..], seen + Ids([calls[0]]), issued + Taken(calls[0])) == calls[1..]
    ensures FilterCalls(supply, calls, seen, issued) == calls
  {
    TakesClean(supply, calls[0], seen, issued);
    Unrolled(supply, calls, seen, issued, [calls[0]], calls[1..]);
    assert calls == [calls[0]] + calls[1..];
  }

  lemma Unrolled(supply: nat -> string, calls: seq<ToolCall>, seen: set<string>, issued: nat, one: seq<ToolCall>, rest: seq<ToolCall>)
    requires calls != [] && one == TakeOne(supply, calls[0], seen, issued)
    requires rest == FilterCalls(supply, calls[1..], seen + Ids(one), issued + Taken(calls[0]))
    ensures FilterCalls(supply, calls, seen, issued) == one + rest
  {
  }

  lemma IdsTail(calls: seq<ToolCall>)
    requires calls != [] && CleanCalls(calls)
    ensures calls[0].id in Ids(calls) && Ids(calls[1..]) <= Ids(calls) && calls[0].id !in Ids(calls[1..])
  {
    forall id | id in Ids(calls[1..]) ensures id in Ids(calls) && id != calls[0].id {
      var i :| 0 <= i < |calls[1..]| && calls[1..][i].id == id;
      assert calls[i + 1].id == id;
    }
  }

  /** A sound conversation is judged to stay as it is. */
  lemma JudgeKeeps(v: Variant, supply: nat -> string, history: seq<Message>, issued: nat, m: Message)
    requires Sound(history + [m])
    ensures Judge(v, supply, history, issued, m) == [m]
  {
    var all := history + [m];
    assert all[|history|] == m && all[..|history|] == history;
    if m.role == Assistant {
      FilterKeepsClean(supply, m.toolCalls, {}, issued);
      assert m.(toolCalls := m.toolCalls) == m;
    }
  }

  lemma {:induction false} SoundIsKept(v: Variant, supply: nat -> string, messages: seq<Message>)
    requires Sound(messages)
    ensures Judged(v, supply, messages) == messages
    decreases |messages|
  {
    if messages != [] {
      var before, m := messages[..|messages| - 1], messages[|messages| - 1];
      assert messages == before + [m];
      assert Sound(before) by {
        assert forall i :: 0 <= i < |before| ==> before[i] == messages[i] && before[..i] == messages[..i];
      }
      SoundIsKept(v, supply, before);
      JudgeKeeps(v, supply, before, TakenByAll(before), m);
    }
  }

  /** Sanitizing twice is sanitizing once, for both variants and even across
      them, whatever ids the second pass could draw. */
  lemma SanitizeIdempotent(v: Variant, w: Variant, supply: nat -> string, other: nat -> string, messages: seq<Message>)
    requires ProperSupply(supply)
    ensures Sanitize(w, other, Sanitize(v, supply, messages)) == Sanitize(v, supply, messages)
  {
    var once := Sanitize(v, supply, messages);
    SanitizedIsSound(v, supply, messages);
    SoundIsKept(w, other, once);
    SanitizeIsJudged(w, other, once);
  }
}
