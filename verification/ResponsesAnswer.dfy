/** What the items of a Responses answer say of the response they were made from,
    streamed or not: the message first, then each named call at its place. */
module ResponsesAnswer {
  import opened Text
  import opened Models
  import opened ResponsesStream
  import opened Layout

  // ---------- what is delivered ----------

  /** The arguments of a call: an empty object if there are none. */
  predicate ArgumentsOf(call: ToolCall, arguments: string) {
    if Blank(call.arguments) then arguments == "{}" else arguments == TrimSpace(call.arguments)
  }

  predicate GotCallFor(got: Rebuilt, index: int, call: ToolCall, freshID: string) {
    && got.GotCall? && got.index == index && got.name == TrimSpace(call.name) && ArgumentsOf(call, got.arguments)
    && got.callId == if Blank(call.id) then "fc_" + freshID else TrimSpace(call.id)
  }

  predicate ItemFor(item: Item, call: ToolCall, freshID: string) {
    && item.CallItem? && item.name == TrimSpace(call.name) && ArgumentsOf(call, item.arguments)
    && item.callId == (if Blank(call.id) then "fc_" + freshID else TrimSpace(call.id)) && item.id == "fc_" + item.callId
  }

  /** There is a message unless there is neither text nor thinking but a call. */
  predicate Speaks(r: Response) {
    !(Blank(r.text) && Blank(r.thinking) && r.toolCalls != [])
  }

  /** The items a client has rebuilt: the message, then the named calls in order,
      at consecutive indices. */
  ghost predicate GotAll(r: Response, got: seq<Rebuilt>, first: int, supply: nat -> string, used: nat) {
    && |got| == One(Speaks(r)) + Count(HasName(), r.toolCalls, |r.toolCalls|)
    && (Speaks(r) ==> got[0] == GotMessage(first, r.text, if Blank(r.thinking) then "" else r.thinking))
    && forall k :: 0 <= k < |r.toolCalls| && !Blank(r.toolCalls[k].name) ==> GotAt(r, got, first, supply, used, k)
  }

  ghost predicate GotAt(r: Response, got: seq<Rebuilt>, first: int, supply: nat -> string, used: nat, k: nat)
    requires k < |r.toolCalls|
  {
    var at := One(Speaks(r)) + Count(HasName(), r.toolCalls, k);
    at < |got| && GotCallFor(got[at], first + at, r.toolCalls[k], supply(used + Count(LacksID(), r.toolCalls, k)))
  }

  /** The items of the answer that is not streamed. */
  ghost predicate Answers(r: Response, items: seq<Item>, supply: nat -> string) {
    && |items| == One(Speaks(r)) + Count(HasName(), r.toolCalls, |r.toolCalls|)
    && (Speaks(r) ==> items[0] == MessageItem(r.id, r.text, r.thinking))
    && forall k :: 0 <= k < |r.toolCalls| && !Blank(r.toolCalls[k].name) ==> AnswersAt(r, items, supply, k)
  }

  ghost predicate AnswersAt(r: Response, items: seq<Item>, supply: nat -> string, k: nat)
    requires k < |r.toolCalls|
  {
    var at := One(Speaks(r)) + Count(HasName(), r.toolCalls, k);
    at < |items| && ItemFor(items[at], r.toolCalls[k], supply(Count(LacksID(), r.toolCalls, k)))
  }

  // ---------- the call items ----------

  function ItemOf(supply: nat -> string, call: ToolCall, used: nat): seq<Item> {
    if Blank(call.name) then []
    else [CallItem("fc_" + CallId(supply, used, call), CallId(supply, used, call), TrimSpace(call.name), Arguments(call))]
  }

  function Becomes(supply: nat -> string): (ToolCall, nat) -> seq<Item> {
    (call: ToolCall, used: nat) => ItemOf(supply, call, used)
  }

  lemma OutputCons(calls: seq<ToolCall>, supply: nat -> string, used: nat, next: nat)
    requires calls != [] && next == used + One(LacksID()(calls[0]))
    ensures OutputCalls(calls, supply, used) == ItemOf(supply, calls[0], used) + OutputCalls(calls[1..], supply, next)
  {
    if Blank(calls[0].name) {
      assert next == used;
      NoneBefore(OutputCalls(calls[1..], supply, used));
    } else {
      assert next == IssuedAfter(used, calls[0]);
    }
  }

  lemma NoneBefore<T>(s: seq<T>)
    ensures [] + s == s
  {
  }

  lemma {:induction false} OutputLaidOut(calls: seq<ToolCall>, supply: nat -> string, used: nat)
    ensures OutputCalls(calls, supply, used) == LaidOut(Becomes(supply), LacksID(), calls, used)
    decreases |calls|
  {
    if calls != [] {
      var next := used + One(LacksID()(calls[0]));
      OutputCons(calls, supply, used, next);
      OutputLaidOut(calls[1..], supply, next);
      LaidOutCons(Becomes(supply), LacksID(), calls, used, next, OutputCalls(calls[1..], supply, next));
    }
  }

  /** The item of the call at k stands where the counts say. */
  lemma CallStands(calls: seq<ToolCall>, supply: nat -> string, used: nat, k: nat, nth: nat) returns (item: Item)
    requires k < |calls| && !Blank(calls[k].name) && nth == used + Count(LacksID(), calls, k)
    ensures Stands(OutputCalls(calls, supply, used), Count(HasName(), calls, k), item) && ItemFor(item, calls[k], supply(nth))
  {
    var call := calls[k];
    item := ItemOf(supply, call, nth)[0];
    OutputLaidOut(calls, supply, used);
    assert Becomes(supply)(call, nth) == [item];
    LaidOutAt(Becomes(supply), HasName(), LacksID(), calls, used, k, call, nth, item);
  }

  lemma CallCount(calls: seq<ToolCall>, supply: nat -> string, used: nat)
    ensures |OutputCalls(calls, supply, used)| == Count(HasName(), calls, |calls|)
  {
    OutputLaidOut(calls, supply, used);
    LaidOutCount(Becomes(supply), HasName(), LacksID(), calls, used);
  }

  function Front(r: Response, reasoning: string): seq<Item> {
    if HasMessage(r) then [MessageItem(r.id, r.text, reasoning)] else []
  }

  lemma FrontCounts(r: Response, reasoning: string)
    ensures |Front(r, reasoning)| == One(Speaks(r))
  {
  }

  lemma CallStandsBehind(front: seq<Item>, calls: seq<ToolCall>, supply: nat -> string, used: nat, k: nat, nth: nat, at: nat) returns (item: Item)
    requires k < |calls| && !Blank(calls[k].name) && nth == used + Count(LacksID(), calls, k) && at == |front| + Count(HasName(), calls, k)
    ensures Stands(front + OutputCalls(calls, supply, used), at, item) && ItemFor(item, calls[k], supply(nth))
  {
    item := CallStands(calls, supply, used, k, nth);
    StandsAt(front, OutputCalls(calls, supply, used), Count(HasName(), calls, k), item, at);
  }

  lemma StandsAt<P>(front: seq<P>, more: seq<P>, n: nat, item: P, at: nat)
    requires Stands(more, n, item) && at == |front| + n
    ensures Stands(front + more, at, item)
  {
    StandsBehind(front, more, n, item);
  }

  lemma AnsweredAt(r: Response, supply: nat -> string, k: nat)
    requires k < |r.toolCalls| && !Blank(r.toolCalls[k].name)
    ensures AnswersAt(r, Front(r, r.thinking) + OutputCalls(r.toolCalls, supply, 0), supply, k)
  {
    FrontCounts(r, r.thinking);
    var item := CallStandsBehind(Front(r, r.thinking), r.toolCalls, supply, 0, k, Count(LacksID(), r.toolCalls, k),
                                 One(Speaks(r)) + Count(HasName(), r.toolCalls, k));
  }

  /** The answer has the message and the named calls, each with its own id, name
      and arguments, in order. */
  lemma OutputAnswers(r: Response, answerIds: nat -> string)
    ensures Answers(r, Output(r, answerIds), answerIds)
  {
    assert Output(r, answerIds) == Front(r, r.thinking) + OutputCalls(r.toolCalls, answerIds, 0);
    CallCount(r.toolCalls, answerIds, 0);
    forall k | 0 <= k < |r.toolCalls| && !Blank(r.toolCalls[k].name) ensures AnswersAt(r, Output(r, answerIds), answerIds, k) {
      AnsweredAt(r, answerIds, k);
    }
  }

  // ---------- the stream ----------

  lemma {:induction false} NumberedAt(items: seq<Item>, index: int, at: nat, item: Item)
    requires Stands(items, at, item)
    ensures Stands(Numbered(items, index), at, AsRebuilt(item, index + at))
    decreases |items|
  {
    if at > 0 {
      NumberedAt(items[1..], index + 1, at - 1, item);
    }
  }

  lemma {:induction false} NumberedLength(items: seq<Item>, index: int)
    ensures |Numbered(items, index)| == |items|
    decreases |items|
  {
    if items != [] {
      NumberedLength(items[1..], index + 1);
    }
  }

  lemma RebuiltFor(item: Item, call: ToolCall, freshID: string, index: int)
    requires ItemFor(item, call, freshID)
    ensures GotCallFor(AsRebuilt(item, index), index, call, freshID)
  {
  }

  lemma StreamedAt(r: Response, supply: nat -> string, used: nat, items: seq<Item>, first: int, k: nat)
    requires items == Front(r, Visible(r.thinking)) + OutputCalls(r.toolCalls, supply, used)
    requires k < |r.toolCalls| && !Blank(r.toolCalls[k].name)
    ensures GotAt(r, Numbered(items, first), first, supply, used, k)
  {
    var at, nth: nat := One(Speaks(r)) + Count(HasName(), r.toolCalls, k), used + Count(LacksID(), r.toolCalls, k);
    FrontCounts(r, Visible(r.thinking));
    var item := CallStandsBehind(Front(r, Visible(r.thinking)), r.toolCalls, supply, used, k, nth, at);
    NumberedAt(items, first, at, item);
    RebuiltFor(item, r.toolCalls[k], supply(nth), first + at);
    GotHere(r, Numbered(items, first), first, supply, used, k, at, nth, AsRebuilt(item, first + at));
  }

  lemma GotHere(r: Response, got: seq<Rebuilt>, first: int, supply: nat -> string, used: nat, k: nat, at: nat, nth: nat, one: Rebuilt)
    requires k < |r.toolCalls| && at == One(Speaks(r)) + Count(HasName(), r.toolCalls, k) && nth == used + Count(LacksID(), r.toolCalls, k)
    requires Stands(got, at, one) && GotCallFor(one, first + at, r.toolCalls[k], supply(nth))
    ensures GotAt(r, got, first, supply, used, k)
  {
  }

  lemma StreamedItems(r: Response, supply: nat -> string, used: nat, items: seq<Item>, first: int)
    requires items == Front(r, Visible(r.thinking)) + OutputCalls(r.toolCalls, supply, used)
    ensures GotAll(r, Numbered(items, first), first, supply, used)
  {
    CallCount(r.toolCalls, supply, used);
    NumberedLength(items, first);
    forall k | 0 <= k < |r.toolCalls| && !Blank(r.toolCalls[k].name) ensures GotAt(r, Numbered(items, first), first, supply, used, k) {
      StreamedAt(r, supply, used, items, first, k);
    }
  }

  /** What the strict client has rebuilt at the end of the stream: the message and the
      named calls of the response, in order and at consecutive indices that begin at
      one exactly when there is visible thinking; `used` fresh ids are taken before. */
  lemma StreamGets(wire: Wire, supply: nat -> string, r: Response, answerIds: nat -> string) returns (used: nat)
    requires Uncut(wire, r)
    ensures var client := ReadAll(wire, NewClient, StreamTrace(supply, r, answerIds));
            client.Client? && client.open.None? && GotAll(r, client.done, FirstIndex(r), supply, used)
  {
    used := AfterMessage(supply, r).pos.issued;
    ItemsRebuilt(wire, supply, r, answerIds);
    var items := Streamed(supply, r);
    assert items == Front(r, Visible(r.thinking)) + OutputCalls(r.toolCalls, supply, used);
    assert [] + Numbered(items, FirstIndex(r)) == Numbered(items, FirstIndex(r));
    StreamedItems(r, supply, used, items, FirstIndex(r));
  }

  /** The stream ends with the items of the answer and its text. */
  lemma StreamCompletes(supply: nat -> string, r: Response, answerIds: nat -> string)
    ensures var events := StreamTrace(supply, r, answerIds);
            var last := events[|events| - 1];
            last.Completed? && last.outputText == r.text && Answers(r, last.output, answerIds)
  {
    OutputAnswers(r, answerIds);
  }

  // ---------- the reasoning on the way ----------

  /** What the reasoning deltas spell. */
  function ReasoningOf(events: seq<Event>): string {
    if events == [] then "" else (if events[0].ReasoningDelta? then events[0].delta else "") + ReasoningOf(events[1..])
  }

  lemma {:induction false} ReasoningAppend(a: seq<Event>, b: seq<Event>)
    ensures ReasoningOf(a + b) == ReasoningOf(a) + ReasoningOf(b)
    decreases |a|
  {
    if a == [] {
      assert a + b == b;
    } else {
      assert (a + b)[1..] == a[1..] + b;
      ReasoningAppend(a[1..], b);
      Assoc(if a[0].ReasoningDelta? then a[0].delta else "", ReasoningOf(a[1..]), ReasoningOf(b));
    }
  }

  lemma {:induction false} NoReasoning(events: seq<Event>)
    requires forall e :: e in events ==> !e.ReasoningDelta?
    ensures ReasoningOf(events) == ""
    decreases |events|
  {
    if events != [] {
      assert events[0] in events;
      NoReasoning(events[1..]);
    }
  }

  function ReasoningBy(op: Op): string {
    if op.Reasoning? then Visible(op.delta) else ""
  }

  function ReasoningIn(ops: seq<Op>): string {
    if ops == [] then "" else ReasoningBy(ops[0]) + ReasoningIn(ops[1..])
  }

  lemma OpSpells(supply: nat -> string, p: Position, op: Op)
    ensures ReasoningOf(Perform(supply, p, op).events) == ReasoningBy(op)
  {
    var events := Perform(supply, p, op).events;
    if op.Reasoning? {
      if !Blank(op.delta) {
        assert events[1..] == [];
      }
    } else {
      NoReasoning(events);
    }
  }

  lemma {:induction false} OpsSpell(supply: nat -> string, p: Position, ops: seq<Op>)
    ensures ReasoningOf(PerformAll(supply, p, ops).events) == ReasoningIn(ops)
    decreases |ops|
  {
    if ops != [] {
      var first := Perform(supply, p, ops[0]);
      OpSpells(supply, p, ops[0]);
      OpsSpell(supply, first.pos, ops[1..]);
      ReasoningAppend(first.events, PerformAll(supply, first.pos, ops[1..]).events);
    }
  }

  lemma {:induction false} ReasoningInAppend(a: seq<Op>, b: seq<Op>)
    ensures ReasoningIn(a + b) == ReasoningIn(a) + ReasoningIn(b)
    decreases |a|
  {
    if a == [] {
      assert a + b == b;
    } else {
      assert (a + b)[1..] == a[1..] + b;
      ReasoningInAppend(a[1..], b);
      Assoc(ReasoningBy(a[0]), ReasoningIn(a[1..]), ReasoningIn(b));
    }
  }

  lemma {:induction false} OthersSpellNothing(ops: seq<Op>)
    requires forall op :: op in ops ==> !op.Reasoning?
    ensures ReasoningIn(ops) == ""
    decreases |ops|
  {
    if ops != [] {
      assert ops[0] in ops;
      OthersSpellNothing(ops[1..]);
    }
  }

  /** The pieces that are not blank. */
  function VisiblePieces(chunks: seq<string>): string {
    if chunks == [] then "" else Visible(chunks[0]) + VisiblePieces(chunks[1..])
  }

  lemma {:induction false} PiecesSpell(chunks: seq<string>)
    ensures ReasoningIn(ReasoningOps(chunks)) == VisiblePieces(chunks)
    decreases |chunks|
  {
    if chunks != [] {
      assert ReasoningOps(chunks)[1..] == ReasoningOps(chunks[1..]);
      PiecesSpell(chunks[1..]);
    }
  }

  lemma {:induction false} TextOpsOnly(chunks: seq<string>)
    ensures forall op :: op in TextOps(chunks) ==> op.TextPiece?
    decreases |chunks|
  {
    if chunks != [] {
      TextOpsOnly(chunks[1..]);
    }
  }

  lemma {:induction false} CallOpsOnly(calls: seq<ToolCall>)
    ensures forall op :: op in CallOps(calls) ==> op.Call?
    decreases |calls|
  {
    if calls != [] {
      CallOpsOnly(calls[1..]);
    }
  }

  /** The reasoning deltas of a stream spell the visible pieces of the thinking. */
  lemma ReasoningSpelled(supply: nat -> string, r: Response, answerIds: nat -> string)
    ensures ReasoningOf(StreamTrace(supply, r, answerIds)) == if Speaks(r) then VisiblePieces(Chunks(r.thinking, CHUNK)) else ""
  {
    var events := PerformAll(supply, Initial, Ops(r)).events;
    var end := [Completed(Output(r, answerIds), r.text)];
    ReasoningAppend(events, end);
    NoReasoning(end);
    OpsSpell(supply, Initial, Ops(r));
    MessageSpells(r);
    assert events + end == StreamTrace(supply, r, answerIds);
    assert ReasoningOf(events) + "" == ReasoningOf(events);
  }

  lemma MessageSpells(r: Response)
    ensures ReasoningIn(Ops(r)) == if Speaks(r) then VisiblePieces(Chunks(r.thinking, CHUNK)) else ""
  {
    var pieces, texts := ReasoningOps(Chunks(r.thinking, CHUNK)), TextOps(Chunks(r.text, CHUNK)) + [Close(r.text, r.thinking)];
    ReasoningInAppend([Start], MessageOps(r) + CallOps(r.toolCalls));
    ReasoningInAppend(MessageOps(r), CallOps(r.toolCalls));
    OthersSpellNothing([Start]);
    CallOpsOnly(r.toolCalls);
    OthersSpellNothing(CallOps(r.toolCalls));
    TextOpsOnly(Chunks(r.text, CHUNK));
    OthersSpellNothing(texts);
    ReasoningInAppend(pieces, texts);
    PiecesSpell(Chunks(r.thinking, CHUNK));
    NoneAround(ReasoningIn(MessageOps(r)));
    NoneAround(ReasoningIn(pieces));
  }

  lemma NoneAround(s: string)
    ensures "" + s == s && s + "" == s && "" + (s + "") == s
  {
  }

  /** When no piece is blank, that is the thinking itself. */
  lemma {:induction false} AllVisible(chunks: seq<string>)
    requires forall i :: 0 <= i < |chunks| ==> !Blank(chunks[i])
    ensures VisiblePieces(chunks) == Concat(chunks)
    decreases |chunks|
  {
    if chunks != [] {
      AllVisible(chunks[1..]);
    }
  }

  lemma WholeThinkingSpelled(supply: nat -> string, r: Response, answerIds: nat -> string)
    requires !Blank(r.thinking) && forall i :: 0 <= i < |Chunks(r.thinking, CHUNK)| ==> !Blank(Chunks(r.thinking, CHUNK)[i])
    ensures ReasoningOf(StreamTrace(supply, r, answerIds)) == r.thinking
  {
    ReasoningSpelled(supply, r, answerIds);
    AllVisible(Chunks(r.thinking, CHUNK));
    ChunksJoin(r.thinking, CHUNK);
  }
}
