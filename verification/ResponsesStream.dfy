/** The OpenAI Responses stream: the stream state with its output indices, the
    method that writes a whole response, and the client that rebuilds the items
    and must find those of the non-streamed answer. */
module ResponsesStream {
  import opened Text
  import opened Models
  import opened Emission

  // ---------- events ----------

  datatype Item =
    | MessageItem(id: string, text: string, reasoning: string)
    | CallItem(id: string, callId: string, name: string, arguments: string)

  datatype Event =
    | Created
    | InProgress
    | ReasoningDelta(itemId: string, index: int, delta: string)
    | ItemAdded(index: int, item: Item)
    | PartAdded(itemId: string, index: int)
    | TextDelta(itemId: string, index: int, delta: string)
    | TextDone(itemId: string, index: int, text: string, reasoning: string)
    | PartDone(itemId: string, index: int, text: string, reasoning: string)
    | ArgumentsDelta(itemId: string, index: int, delta: string)
    | ArgumentsDone(itemId: string, index: int, arguments: string)
    | ItemDone(index: int, item: Item)
    | Completed(output: seq<Item>, outputText: string)

  // ---------- the state, as a value ----------

  /** The fields of ResponsesStreamState that change; `issued` counts the fresh
      ids taken so far. */
  datatype Position = Position(started: bool, messageOpen: bool, messageIndex: int, messageItem: string,
                               nextIndex: int, reasoningID: string, issued: nat)

  const Initial := Position(false, false, 0, "", 0, "", 0)

  datatype Op = Start | Reasoning(delta: string) | TextPiece(delta: string) | Close(text: string, reasoning: string) | Call(call: ToolCall)

  datatype Outcome = Outcome(pos: Position, events: seq<Event>)

  const CHUNK := 160

  function Arguments(call: ToolCall): string {
    if Blank(call.arguments) then "{}" else TrimSpace(call.arguments)
  }

  function CallId(supply: nat -> string, issued: nat, call: ToolCall): string {
    if Blank(call.id) then "fc_" + supply(issued) else TrimSpace(call.id)
  }

  function IssuedAfter(issued: nat, call: ToolCall): nat {
    if Blank(call.id) then issued + 1 else issued
  }

  function Raised(p: Position): Position {
    if p.nextIndex <= p.messageIndex then p.(nextIndex := p.messageIndex + 1) else p
  }

  /** ensureMessageItem. */
  function Ensure(supply: nat -> string, p: Position): Outcome {
    if p.messageOpen then Outcome(p, [])
    else
      var id := if p.messageItem == "" then "msg_" + supply(p.issued) else p.messageItem;
      var q := p.(messageOpen := true, messageIndex := p.nextIndex, nextIndex := p.nextIndex + 1, messageItem := id,
                  issued := if p.messageItem == "" then p.issued + 1 else p.issued);
      Outcome(q, [ItemAdded(p.nextIndex, MessageItem(id, "", "")), PartAdded(id, p.nextIndex)])
  }

  function ArgumentDeltas(id: string, index: int, chunks: seq<string>): seq<Event> {
    seq(|chunks|, i requires 0 <= i < |chunks| => ArgumentsDelta(id, index, chunks[i]))
  }

  function CallEvents(id: string, name: string, index: int, arguments: string): seq<Event> {
    [ItemAdded(index, CallItem(id, id, name, ""))]
    + ArgumentDeltas(id, index, StreamChunks(arguments, CHUNK))
    + [ArgumentsDone(id, index, arguments), ItemDone(index, CallItem(id, id, name, arguments))]
  }

  function CloseEvents(p: Position, text: string, reasoning: string): seq<Event> {
    [TextDone(p.messageItem, p.messageIndex, text, reasoning),
     PartDone(p.messageItem, p.messageIndex, text, Visible(reasoning)),
     ItemDone(p.messageIndex, MessageItem(p.messageItem, text, Visible(reasoning)))]
  }

  /** What one call of a method of the stream state does. */
  function Perform(supply: nat -> string, p: Position, op: Op): Outcome {
    match op
    case Start => if p.started then Outcome(p, []) else Outcome(p.(started := true), [Created, InProgress])
    case Reasoning(delta) =>
      if Blank(delta) then Outcome(p, [])
      else
        var q := if p.reasoningID == "" then p.(reasoningID := "rs_" + supply(p.issued), issued := p.issued + 1) else p;
        Outcome(Raised(q), [ReasoningDelta(q.reasoningID, q.messageIndex, delta)])
    case TextPiece(delta) =>
      if delta == "" then Outcome(p, [])
      else
        var o := Ensure(supply, p);
        Outcome(Raised(o.pos), o.events + [TextDelta(o.pos.messageItem, o.pos.messageIndex, delta)])
    case Close(text, reasoning) =>
      var o := Ensure(supply, p);
      Outcome(Raised(o.pos.(messageOpen := false)), o.events + CloseEvents(o.pos, text, reasoning))
    case Call(call) =>
      if Blank(call.name) then Outcome(p, [])
      else
        Outcome(p.(nextIndex := p.nextIndex + 1, issued := IssuedAfter(p.issued, call)),
                CallEvents(CallId(supply, p.issued, call), TrimSpace(call.name), p.nextIndex, Arguments(call)))
  }

  function PerformAll(supply: nat -> string, p: Position, ops: seq<Op>): Outcome
    decreases |ops|
  {
    if ops == [] then Outcome(p, [])
    else
      var first := Perform(supply, p, ops[0]);
      var rest := PerformAll(supply, first.pos, ops[1..]);
      Outcome(rest.pos, first.events + rest.events)
  }

  // ---------- the state, as an object ----------

  class ResponsesStreamState {
    const out: Emitter<Event>
    const freshID: nat -> string
    var started: bool
    var messageOpen: bool
    var messageIndex: int
    var messageItem: string
    var nextIndex: int
    var reasoningID: string
    var issued: nat

    function View(): Position
      reads this
    {
      Position(started, messageOpen, messageIndex, messageItem, nextIndex, reasoningID, issued)
    }

    constructor (out: Emitter<Event>, freshID: nat -> string)
      ensures View() == Initial && this.out == out && this.freshID == freshID
    {
      this.out, this.freshID := out, freshID;
      started, messageOpen, messageIndex, messageItem := false, false, 0, "";
      nextIndex, reasoningID, issued := 0, "", 0;
    }

    method Begin()
      modifies this, out
      ensures var o := Perform(freshID, old(View()), Start);
              View() == o.pos && out.trace == old(out.trace) + o.events
    {
      if started {
        return;
      }
      started := true;
      out.Emit(Created);
      out.Emit(InProgress);
    }

    method EmitReasoningDelta(delta: string)
      modifies this, out
      ensures var o := Perform(freshID, old(View()), Reasoning(delta));
              View() == o.pos && out.trace == old(out.trace) + o.events
    {
      if Blank(delta) {
        return;
      }
      if reasoningID == "" {
        reasoningID := "rs_" + freshID(issued);
        issued := issued + 1;
      }
      out.Emit(ReasoningDelta(reasoningID, messageIndex, delta));
      if nextIndex <= messageIndex {
        nextIndex := messageIndex + 1;
      }
    }

    method EnsureMessageItem()
      modifies this, out
      ensures var o := Ensure(freshID, old(View()));
              View() == o.pos && out.trace == old(out.trace) + o.events
    {
      if messageOpen {
        return;
      }
      if messageItem == "" {
        messageItem := "msg_" + freshID(issued);
        issued := issued + 1;
      }
      messageIndex := nextIndex;
      nextIndex := nextIndex + 1;
      messageOpen := true;
      out.Emit(ItemAdded(messageIndex, MessageItem(messageItem, "", "")));
      out.Emit(PartAdded(messageItem, messageIndex));
    }

    method EmitTextDelta(delta: string)
      modifies this, out
      ensures var o := Perform(freshID, old(View()), TextPiece(delta));
              View() == o.pos && out.trace == old(out.trace) + o.events
    {
      if delta == "" {
        return;
      }
      EnsureMessageItem();
      out.Emit(TextDelta(messageItem, messageIndex, delta));
      if nextIndex <= messageIndex {
        nextIndex := messageIndex + 1;
      }
    }

    method CloseMessageItem(text: string, reasoning: string)
      modifies this, out
      ensures var o := Perform(freshID, old(View()), Close(text, reasoning));
              View() == o.pos && out.trace == old(out.trace) + o.events
    {
      EnsureMessageItem();
      var content := "";
      if TrimSpace(reasoning) != "" {
        content := reasoning;
      }
      out.Emit(TextDone(messageItem, messageIndex, text, reasoning));
      out.Emit(PartDone(messageItem, messageIndex, text, content));
      out.Emit(ItemDone(messageIndex, MessageItem(messageItem, text, content)));
      messageOpen := false;
      if nextIndex <= messageIndex {
        nextIndex := messageIndex + 1;
      }
    }

    method EmitFunctionCall(call: ToolCall)
      modifies this, out
      ensures var o := Perform(freshID, old(View()), Call(call));
              View() == o.pos && out.trace == old(out.trace) + o.events
    {
      var name := TrimSpace(call.name);
      if name == "" {
        return;
      }
      var itemID := TrimSpace(call.id);
      if itemID == "" {
        itemID := "fc_" + freshID(issued);
        issued := issued + 1;
      }
      var outputIndex := nextIndex;
      nextIndex := nextIndex + 1;
      EmitCall(itemID, name, outputIndex, Arguments(call));
    }

    method EmitCall(itemID: string, name: string, outputIndex: int, arguments: string)
      modifies out
      ensures out.trace == old(out.trace) + CallEvents(itemID, name, outputIndex, arguments)
    {
      out.Emit(ItemAdded(outputIndex, CallItem(itemID, itemID, name, "")));
      EmitArguments(itemID, outputIndex, arguments);
      out.Emit(ArgumentsDone(itemID, outputIndex, arguments));
      out.Emit(ItemDone(outputIndex, CallItem(itemID, itemID, name, arguments)));
    }

    method EmitArguments(itemID: string, index: int, arguments: string)
      modifies out
      ensures out.trace == old(out.trace) + ArgumentDeltas(itemID, index, StreamChunks(arguments, CHUNK))
    {
      var chunks := ChunkStreamText(arguments, CHUNK);
      var i := 0;
      while i < |chunks|
        invariant 0 <= i <= |chunks|
        invariant out.trace == old(out.trace) + ArgumentDeltas(itemID, index, chunks[..i])
      {
        assert ArgumentDeltas(itemID, index, chunks[..i + 1])
            == ArgumentDeltas(itemID, index, chunks[..i]) + [ArgumentsDelta(itemID, index, chunks[i])];
        out.Emit(ArgumentsDelta(itemID, index, chunks[i]));
        i := i + 1;
      }
      assert chunks[..i] == chunks;
    }
  }

  /** chunkStreamText. */
  method ChunkStreamText(text: string, size: int) returns (chunks: seq<string>)
    ensures chunks == StreamChunks(text, size)
  {
    if size <= 0 || |text| <= size {
      return if text == "" then [] else [text];
    }
    chunks := [];
    var rest := text;
    while |rest| > 0
      invariant Cut(text, size) == chunks + Cut(rest, size)
      decreases |rest|
    {
      if |rest| <= size {
        chunks := chunks + [rest];
        return;
      }
      chunks := chunks + [rest[..size]];
      rest := rest[size..];
    }
  }

  // ---------- indices over arbitrary call sequences ----------

  /** The output indices of the items a list of events adds. */
  function AddedIndices(events: seq<Event>): seq<int> {
    if events == [] then []
    else AddedBy(events[0]) + AddedIndices(events[1..])
  }

  function AddedBy(e: Event): seq<int> {
    if e.ItemAdded? then [e.index] else []
  }

  lemma AddedCons(e: Event, rest: seq<Event>)
    ensures AddedIndices([e] + rest) == AddedBy(e) + AddedIndices(rest)
  {
    assert ([e] + rest)[1..] == rest;
  }

  lemma {:induction false} AddedAppend(a: seq<Event>, b: seq<Event>)
    ensures AddedIndices(a + b) == AddedIndices(a) + AddedIndices(b)
    decreases |a|
  {
    if a == [] {
      assert a + b == b;
    } else {
      assert a == [a[0]] + a[1..] && a + b == [a[0]] + (a[1..] + b);
      AddedCons(a[0], a[1..]);
      AddedCons(a[0], a[1..] + b);
      AddedAppend(a[1..], b);
      Assoc(AddedBy(a[0]), AddedIndices(a[1..]), AddedIndices(b));
    }
  }

  lemma {:induction false} NoneAdded(events: seq<Event>)
    requires forall i :: 0 <= i < |events| ==> !events[i].ItemAdded?
    ensures AddedIndices(events) == []
    decreases |events|
  {
    if events != [] {
      NoneAdded(events[1..]);
    }
  }

  predicate Increasing(xs: seq<int>) {
    forall i, j :: 0 <= i < j < |xs| ==> xs[i] < xs[j]
  }

  lemma OneAdded(e: Event, following: seq<Event>)
    requires e.ItemAdded? && forall i :: 0 <= i < |following| ==> !following[i].ItemAdded?
    ensures AddedIndices([e] + following) == [e.index]
  {
    assert ([e] + following)[1..] == following;
    NoneAdded(following);
  }

  /** One call adds nothing, or one item at the next index. */
  lemma PerformIndices(supply: nat -> string, p: Position, op: Op)
    ensures var o := Perform(supply, p, op);
            p.nextIndex <= o.pos.nextIndex &&
            (AddedIndices(o.events) == [] ||
             (AddedIndices(o.events) == [p.nextIndex] && p.nextIndex < o.pos.nextIndex))
  {
    var o := Perform(supply, p, op);
    OnlyFirstAdds(supply, p, op);
    if o.events != [] && o.events[0].ItemAdded? {
      assert o.events == [o.events[0]] + o.events[1..];
      OneAdded(o.events[0], o.events[1..]);
    } else {
      NoneAdded(o.events);
    }
  }

  lemma OnlyFirstAdds(supply: nat -> string, p: Position, op: Op)
    ensures var o := Perform(supply, p, op);
            && p.nextIndex <= o.pos.nextIndex
            && (forall i :: 1 <= i < |o.events| ==> !o.events[i].ItemAdded?)
            && (o.events != [] && o.events[0].ItemAdded? ==> o.events[0].index == p.nextIndex < o.pos.nextIndex)
  {
  }

  predicate Between(xs: seq<int>, low: int, high: int) {
    forall i :: 0 <= i < |xs| ==> low <= xs[i] < high
  }

  lemma IncreasingAppend(a: seq<int>, b: seq<int>, low: int, middle: int, high: int)
    requires Increasing(a) && Between(a, low, middle) && Increasing(b) && Between(b, middle, high) && low <= middle <= high
    ensures Increasing(a + b) && Between(a + b, low, high)
  {
  }

  /** Whatever methods are called, in whatever order, no two added items share
      an output index: the indices strictly increase. */
  lemma {:induction false} IndicesIncrease(supply: nat -> string, p: Position, ops: seq<Op>)
    ensures var o := PerformAll(supply, p, ops);
            p.nextIndex <= o.pos.nextIndex && Increasing(AddedIndices(o.events)) &&
            Between(AddedIndices(o.events), p.nextIndex, o.pos.nextIndex)
    decreases |ops|
  {
    if ops != [] {
      var first := Perform(supply, p, ops[0]);
      var rest := PerformAll(supply, first.pos, ops[1..]);
      PerformIndices(supply, p, ops[0]);
      IndicesIncrease(supply, first.pos, ops[1..]);
      AddedAppend(first.events, rest.events);
      IncreasingAppend(AddedIndices(first.events), AddedIndices(rest.events), p.nextIndex, first.pos.nextIndex, rest.pos.nextIndex);
    }
  }

  // ---------- a whole response ----------

  predicate HasMessage(r: Response) {
    !Blank(r.text) || !Blank(r.thinking) || r.toolCalls == []
  }

  function ReasoningOps(chunks: seq<string>): seq<Op> {
    if chunks == [] then [] else [Reasoning(chunks[0])] + ReasoningOps(chunks[1..])
  }

  function TextOps(chunks: seq<string>): seq<Op> {
    if chunks == [] then [] else [TextPiece(chunks[0])] + TextOps(chunks[1..])
  }

  function CallOps(calls: seq<ToolCall>): seq<Op> {
    if calls == [] then [] else [Call(calls[0])] + CallOps(calls[1..])
  }

  function MessageOps(r: Response): seq<Op> {
    if !HasMessage(r) then []
    else ReasoningOps(Chunks(r.thinking, CHUNK)) + (TextOps(Chunks(r.text, CHUNK)) + [Close(r.text, r.thinking)])
  }

  /** The call items of the non-streamed answer, from `issued` fresh ids on. */
  function OutputCalls(calls: seq<ToolCall>, ids: nat -> string, issued: nat): seq<Item>
    decreases |calls|
  {
    if calls == [] then []
    else if Blank(calls[0].name) then OutputCalls(calls[1..], ids, issued)
    else
      var call := calls[0];
      var id := CallId(ids, issued, call);
      [CallItem("fc_" + id, id, TrimSpace(call.name), Arguments(call))] + OutputCalls(calls[1..], ids, IssuedAfter(issued, call))
  }

  /** IRToResponses. */
  function Output(r: Response, answerIds: nat -> string): seq<Item> {
    if HasMessage(r) then [MessageItem(r.id, r.text, r.thinking)] + OutputCalls(r.toolCalls, answerIds, 0)
    else OutputCalls(r.toolCalls, answerIds, 0)
  }

  function Ops(r: Response): seq<Op> {
    [Start] + (MessageOps(r) + CallOps(r.toolCalls))
  }

  function StreamTrace(supply: nat -> string, r: Response, answerIds: nat -> string): seq<Event> {
    PerformAll(supply, Initial, Ops(r)).events + [Completed(Output(r, answerIds), r.text)]
  }

  lemma {:induction false} PerformAppend(supply: nat -> string, p: Position, a: seq<Op>, b: seq<Op>)
    ensures var first := PerformAll(supply, p, a);
            var rest := PerformAll(supply, first.pos, b);
            PerformAll(supply, p, a + b) == Outcome(rest.pos, first.events + rest.events)
    decreases |a|
  {
    if a == [] {
      assert a + b == b;
      var rest := PerformAll(supply, p, b);
      assert [] + rest.events == rest.events;
    } else {
      assert (a + b)[1..] == a[1..] + b;
      var one := Perform(supply, p, a[0]);
      PerformAppend(supply, one.pos, a[1..], b);
      var more := PerformAll(supply, one.pos, a[1..]);
      Assoc(one.events, more.events, PerformAll(supply, more.pos, b).events);
    }
  }

  /** What remains to be performed after one step of a loop. */
  lemma PerformStep(supply: nat -> string, trace: seq<Event>, p: Position, ops: seq<Op>)
    requires ops != []
    ensures var first := Perform(supply, p, ops[0]);
            var rest := PerformAll(supply, first.pos, ops[1..]);
            PerformAll(supply, p, ops).pos == rest.pos &&
            trace + PerformAll(supply, p, ops).events == (trace + first.events) + rest.events
  {
    var first := Perform(supply, p, ops[0]);
    Assoc(trace, first.events, PerformAll(supply, first.pos, ops[1..]).events);
  }

  method PerformOn(state: ResponsesStreamState, op: Op)
    modifies state, state.out
    ensures var o := Perform(state.freshID, old(state.View()), op);
            state.View() == o.pos && state.out.trace == old(state.out.trace) + o.events
  {
    match op
    case Start => state.Begin();
    case Reasoning(delta) => state.EmitReasoningDelta(delta);
    case TextPiece(delta) => state.EmitTextDelta(delta);
    case Close(text, reasoning) => state.CloseMessageItem(text, reasoning);
    case Call(call) => state.EmitFunctionCall(call);
  }

  /** A loop of StreamOpenAIResponses: one method call per element. */
  method PerformLoop(state: ResponsesStreamState, ops: seq<Op>)
    modifies state, state.out
    ensures var o := PerformAll(state.freshID, old(state.View()), ops);
            state.View() == o.pos && state.out.trace == old(state.out.trace) + o.events
  {
    ghost var o := PerformAll(state.freshID, state.View(), ops);
    ghost var goal := state.out.trace + o.events;
    var i := 0;
    assert ops[0..] == ops;
    while i < |ops|
      invariant 0 <= i <= |ops|
      invariant PerformAll(state.freshID, state.View(), ops[i..]).pos == o.pos
      invariant state.out.trace + PerformAll(state.freshID, state.View(), ops[i..]).events == goal
    {
      PerformStep(state.freshID, state.out.trace, state.View(), ops[i..]);
      assert ops[i..][1..] == ops[i + 1..];
      PerformOn(state, ops[i]);
      i := i + 1;
    }
    assert state.out.trace + [] == state.out.trace;
  }

  /** StreamOpenAIResponses. */
  method StreamOpenAIResponses(out: Emitter<Event>, supply: nat -> string, r: Response, answerIds: nat -> string)
    modifies out
    ensures out.trace == old(out.trace) + StreamTrace(supply, r, answerIds)
  {
    var state := new ResponsesStreamState(out, supply);
    ghost var before := out.trace;
    ghost var started := PerformAll(supply, Initial, [Start]);
    PerformLoop(state, [Start]);
    ghost var messages := PerformAll(supply, started.pos, MessageOps(r));
    if HasMessage(r) {
      var thoughts := ChunkText(r.thinking, CHUNK);
      var texts := ChunkText(r.text, CHUNK);
      PerformLoop(state, ReasoningOps(thoughts) + (TextOps(texts) + [Close(r.text, r.thinking)]));
    } else {
      assert out.trace + [] == out.trace;
    }
    ghost var calls := PerformAll(supply, messages.pos, CallOps(r.toolCalls));
    PerformLoop(state, CallOps(r.toolCalls));
    out.Emit(Completed(Output(r, answerIds), r.text));
    PerformAppend(supply, Initial, [Start], MessageOps(r) + CallOps(r.toolCalls));
    PerformAppend(supply, started.pos, MessageOps(r), CallOps(r.toolCalls));
    JoinFive(before, started.events, messages.events, calls.events, [Completed(Output(r, answerIds), r.text)]);
  }

  lemma JoinFive<T>(a: seq<T>, b: seq<T>, c: seq<T>, d: seq<T>, e: seq<T>)
    ensures a + b + c + d + e == a + ((b + (c + d)) + e)
  {
  }

  // ---------- the client that rebuilds the items ----------

  datatype Rebuilt =
    | GotMessage(index: int, text: string, reasoning: string)
    | GotCall(index: int, callId: string, name: string, arguments: string)

  /** Items already done, and the one being received with the text or the
      arguments that its deltas carried so far. */
  datatype Client = Client(done: seq<Rebuilt>, open: Option<Item>, index: int, gathered: string) | Confused

  const NewClient := Client([], None, -1, "")

  predicate Receives(c: Client, id: string, index: int) {
    c.Client? && c.open.Some? && c.open.value.id == id && index == c.index
  }

  /** One event as a strict reader takes it: every delta and every closing event
      must carry the id and the index of the open item, and the closing texts
      must be what the deltas spelled, except that blank message text may come
      without deltas. */
  function React(wire: Wire, c: Client, e: Event): Client {
    if c.Confused? then Confused
    else
      match e
      case Created => c
      case InProgress => c
      case ReasoningDelta(_, _, _) => if c.open.None? then c else Confused
      case ItemAdded(index, item) =>
        if c.open.None? && index > c.index then Client(c.done, Some(item), index, "") else Confused
      case PartAdded(id, index) => if Receives(c, id, index) && c.open.value.MessageItem? then c else Confused
      case TextDelta(id, index, delta) =>
        if Receives(c, id, index) && c.open.value.MessageItem? then c.(gathered := c.gathered + wire(delta)) else Confused
      case TextDone(id, index, text, _) =>
        if Receives(c, id, index) && c.open.value.MessageItem? && (c.gathered == text || (c.gathered == "" && Blank(text)))
        then c else Confused
      case PartDone(id, index, text, _) =>
        if Receives(c, id, index) && c.open.value.MessageItem? then c else Confused
      case ArgumentsDelta(id, index, delta) =>
        if Receives(c, id, index) && c.open.value.CallItem? then c.(gathered := c.gathered + wire(delta)) else Confused
      case ArgumentsDone(id, index, arguments) =>
        if Receives(c, id, index) && c.open.value.CallItem? && c.gathered == arguments then c else Confused
      case ItemDone(index, item) =>
        if !Receives(c, item.id, index) then Confused
        else if item.MessageItem? && c.open.value.MessageItem? then
          Client(c.done + [GotMessage(index, item.text, item.reasoning)], None, c.index, "")
        else if item.CallItem? && item.(arguments := "") == c.open.value && item.arguments == c.gathered then
          Client(c.done + [GotCall(index, item.callId, item.name, item.arguments)], None, c.index, "")
        else Confused
      case Completed(_, _) => if c.open.None? then c else Confused
  }

  function ReadAll(wire: Wire, c: Client, events: seq<Event>): Client
    decreases |events|
  {
    if events == [] then c else ReadAll(wire, React(wire, c, events[0]), events[1..])
  }

  lemma {:induction false} ReadAppend(wire: Wire, c: Client, a: seq<Event>, b: seq<Event>)
    ensures ReadAll(wire, c, a + b) == ReadAll(wire, ReadAll(wire, c, a), b)
    decreases |a|
  {
    if a == [] {
      assert a + b == b;
    } else {
      assert (a + b)[1..] == a[1..] + b;
      ReadAppend(wire, React(wire, c, a[0]), a[1..], b);
    }
  }

  lemma ReadOne(wire: Wire, c: Client, e: Event)
    ensures ReadAll(wire, c, [e]) == React(wire, c, e)
  {
    assert [e][1..] == [];
    assert ReadAll(wire, React(wire, c, e), []) == React(wire, c, e);
  }

  lemma ReadThree(wire: Wire, c: Client, e1: Event, e2: Event, e3: Event)
    ensures ReadAll(wire, c, [e1, e2, e3]) == React(wire, React(wire, React(wire, c, e1), e2), e3)
  {
    assert [e1, e2, e3][1..] == [e2, e3];
    assert [e2, e3][1..] == [e3];
    ReadOne(wire, React(wire, React(wire, c, e1), e2), e3);
  }

  lemma {:induction false} ReadArguments(wire: Wire, c: Client, id: string, chunks: seq<string>)
    requires c.Client? && Receives(c, id, c.index) && c.open.value.CallItem? && Whole(wire, chunks)
    ensures ReadAll(wire, c, ArgumentDeltas(id, c.index, chunks)) == c.(gathered := c.gathered + Concat(chunks))
    decreases |chunks|
  {
    if chunks == [] {
      assert c.gathered + "" == c.gathered;
    } else {
      var events := ArgumentDeltas(id, c.index, chunks);
      assert events[1..] == ArgumentDeltas(id, c.index, chunks[1..]);
      ReadArguments(wire, c.(gathered := c.gathered + chunks[0]), id, chunks[1..]);
      assert c.gathered + chunks[0] + Concat(chunks[1..]) == c.gathered + Concat(chunks);
    }
  }

  lemma ReadPieces(wire: Wire, done: seq<Rebuilt>, last: int, item: Item, index: int, chunks: seq<string>)
    requires last < index && Whole(wire, chunks) && item.CallItem? && item.arguments == Concat(chunks)
    ensures ReadAll(wire, Client(done, None, last, ""),
                    [ItemAdded(index, item.(arguments := ""))] + ArgumentDeltas(item.id, index, chunks)
                    + [ArgumentsDone(item.id, index, item.arguments), ItemDone(index, item)])
            == Client(done + [GotCall(index, item.callId, item.name, item.arguments)], None, index, "")
  {
    var c, begun := Client(done, None, last, ""), Client(done, Some(item.(arguments := "")), index, "");
    ReadOne(wire, c, ItemAdded(index, item.(arguments := "")));
    ReadArguments(wire, begun, item.id, chunks);
    assert "" + item.arguments == item.arguments;
    ReadTwo(wire, begun.(gathered := item.arguments), ArgumentsDone(item.id, index, item.arguments), ItemDone(index, item));
    ReadInThree(wire, c, [ItemAdded(index, item.(arguments := ""))], ArgumentDeltas(item.id, index, chunks),
                [ArgumentsDone(item.id, index, item.arguments), ItemDone(index, item)]);
  }

  /** The argument deltas of a function call spell its arguments. */
  lemma ReadCall(wire: Wire, done: seq<Rebuilt>, last: int, id: string, name: string, index: int, arguments: string)
    requires last < index && Whole(wire, StreamChunks(arguments, CHUNK))
    ensures ReadAll(wire, Client(done, None, last, ""), CallEvents(id, name, index, arguments))
            == Client(done + [GotCall(index, id, name, arguments)], None, index, "")
  {
    ChunksJoin(arguments, CHUNK);
    ReadPieces(wire, done, last, CallItem(id, id, name, arguments), index, StreamChunks(arguments, CHUNK));
  }

  lemma ReadTwo(wire: Wire, c: Client, e1: Event, e2: Event)
    ensures ReadAll(wire, c, [e1, e2]) == React(wire, React(wire, c, e1), e2)
  {
    assert [e1, e2][1..] == [e2];
    ReadOne(wire, React(wire, c, e1), e2);
  }

  lemma ReadInThree(wire: Wire, c: Client, a: seq<Event>, b: seq<Event>, d: seq<Event>)
    ensures ReadAll(wire, c, a + b + d) == ReadAll(wire, ReadAll(wire, ReadAll(wire, c, a), b), d)
  {
    ReadAppend(wire, c, a, b);
    ReadAppend(wire, c, a + b, d);
  }

  // ---------- the items come out as answered ----------

  function AsRebuilt(item: Item, index: int): Rebuilt {
    match item
    case MessageItem(_, text, reasoning) => GotMessage(index, text, reasoning)
    case CallItem(_, callId, name, arguments) => GotCall(index, callId, name, arguments)
  }

  /** The items of an answer as a client should have rebuilt them, numbered from
      an index on. */
  function Numbered(items: seq<Item>, index: int): seq<Rebuilt> {
    if items == [] then [] else [AsRebuilt(items[0], index)] + Numbered(items[1..], index + 1)
  }

  function CallAt(supply: nat -> string, issued: nat, call: ToolCall, index: int): Rebuilt {
    GotCall(index, CallId(supply, issued, call), TrimSpace(call.name), Arguments(call))
  }

  function AfterCall(p: Position, call: ToolCall): Position {
    p.(nextIndex := p.nextIndex + 1, issued := IssuedAfter(p.issued, call))
  }

  /** The arguments of a call are not cut inside a rune. */
  ghost predicate CallUncut(wire: Wire, call: ToolCall) {
    Blank(call.name) || Whole(wire, StreamChunks(Arguments(call), CHUNK))
  }

  ghost predicate CallsUncut(wire: Wire, calls: seq<ToolCall>) {
    forall i :: 0 <= i < |calls| ==> CallUncut(wire, calls[i])
  }

  lemma ReadNamedCall(wire: Wire, supply: nat -> string, p: Position, call: ToolCall, done: seq<Rebuilt>, last: int)
    requires !Blank(call.name) && last < p.nextIndex && CallUncut(wire, call)
    ensures var o := Perform(supply, p, Call(call));
            o.pos == AfterCall(p, call) &&
            ReadAll(wire, Client(done, None, last, ""), o.events)
            == Client(done + [CallAt(supply, p.issued, call, p.nextIndex)], None, p.nextIndex, "")
  {
    ReadCall(wire, done, last, CallId(supply, p.issued, call), TrimSpace(call.name), p.nextIndex, Arguments(call));
  }

  lemma OutputNamed(calls: seq<ToolCall>, ids: nat -> string, issued: nat, index: int)
    requires calls != [] && !Blank(calls[0].name)
    ensures Numbered(OutputCalls(calls, ids, issued), index)
            == [CallAt(ids, issued, calls[0], index)] + Numbered(OutputCalls(calls[1..], ids, IssuedAfter(issued, calls[0])), index + 1)
  {
    var call := calls[0];
    var id := CallId(ids, issued, call);
    NumberedCons(CallItem("fc_" + id, id, TrimSpace(call.name), Arguments(call)),
                 OutputCalls(calls[1..], ids, IssuedAfter(issued, call)), index);
  }

  /** What the client has made of some items. */
  predicate ItemsRead(c: Client, done: seq<Rebuilt>, items: seq<Item>, index: int) {
    c.Client? && c == Client(done + Numbered(items, index), None, c.index, "")
  }

  function AfterCalls(wire: Wire, supply: nat -> string, p: Position, calls: seq<ToolCall>, done: seq<Rebuilt>, last: int): Client {
    ReadAll(wire, Client(done, None, last, ""), PerformAll(supply, p, CallOps(calls)).events)
  }

  lemma NamedCallFirst(wire: Wire, supply: nat -> string, p: Position, calls: seq<ToolCall>, done: seq<Rebuilt>, last: int)
    requires calls != [] && !Blank(calls[0].name) && last < p.nextIndex && CallUncut(wire, calls[0])
    ensures AfterCalls(wire, supply, p, calls, done, last)
            == AfterCalls(wire, supply, AfterCall(p, calls[0]), calls[1..], done + [CallAt(supply, p.issued, calls[0], p.nextIndex)], p.nextIndex)
  {
    var c := Client(done, None, last, "");
    assert CallOps(calls)[1..] == CallOps(calls[1..]);
    var one := Perform(supply, p, Call(calls[0]));
    ReadAppend(wire, c, one.events, PerformAll(supply, one.pos, CallOps(calls[1..])).events);
    ReadNamedCall(wire, supply, p, calls[0], done, last);
  }

  lemma UnnamedCallFirst(wire: Wire, supply: nat -> string, p: Position, calls: seq<ToolCall>, done: seq<Rebuilt>, last: int)
    requires calls != [] && Blank(calls[0].name)
    ensures AfterCalls(wire, supply, p, calls, done, last) == AfterCalls(wire, supply, p, calls[1..], done, last)
  {
    assert CallOps(calls)[1..] == CallOps(calls[1..]);
    var rest := PerformAll(supply, p, CallOps(calls[1..])).events;
    assert [] + rest == rest;
  }

  lemma ItemsReadCons(c: Client, done: seq<Rebuilt>, calls: seq<ToolCall>, ids: nat -> string, issued: nat, index: int)
    requires calls != [] && !Blank(calls[0].name)
    requires ItemsRead(c, done + [CallAt(ids, issued, calls[0], index)], OutputCalls(calls[1..], ids, IssuedAfter(issued, calls[0])), index + 1)
    ensures ItemsRead(c, done, OutputCalls(calls, ids, issued), index)
  {
    OutputNamed(calls, ids, issued, index);
    Assoc(done, [CallAt(ids, issued, calls[0], index)],
          Numbered(OutputCalls(calls[1..], ids, IssuedAfter(issued, calls[0])), index + 1));
  }

  /** The calls of an answer are read back one for one. */
  ghost predicate ReadsCalls(wire: Wire, supply: nat -> string, p: Position, calls: seq<ToolCall>, done: seq<Rebuilt>, last: int) {
    ItemsRead(AfterCalls(wire, supply, p, calls, done, last), done, OutputCalls(calls, supply, p.issued), p.nextIndex)
  }

  lemma ReadsNone(wire: Wire, supply: nat -> string, p: Position, done: seq<Rebuilt>, last: int)
    ensures ReadsCalls(wire, supply, p, [], done, last)
  {
    assert done + [] == done;
  }

  lemma ReadsUnnamed(wire: Wire, supply: nat -> string, p: Position, calls: seq<ToolCall>, done: seq<Rebuilt>, last: int)
    requires calls != [] && Blank(calls[0].name) && ReadsCalls(wire, supply, p, calls[1..], done, last)
    ensures ReadsCalls(wire, supply, p, calls, done, last)
  {
    UnnamedCallFirst(wire, supply, p, calls, done, last);
  }

  lemma ReadsNamed(wire: Wire, supply: nat -> string, p: Position, calls: seq<ToolCall>, done: seq<Rebuilt>, last: int)
    requires calls != [] && !Blank(calls[0].name) && last < p.nextIndex && CallUncut(wire, calls[0])
    requires ReadsCalls(wire, supply, AfterCall(p, calls[0]), calls[1..], done + [CallAt(supply, p.issued, calls[0], p.nextIndex)], p.nextIndex)
    ensures ReadsCalls(wire, supply, p, calls, done, last)
  {
    var got := done + [CallAt(supply, p.issued, calls[0], p.nextIndex)];
    var q := AfterCall(p, calls[0]);
    assert q.issued == IssuedAfter(p.issued, calls[0]) && q.nextIndex == p.nextIndex + 1;
    var c := AfterCalls(wire, supply, q, calls[1..], got, p.nextIndex);
    assert ItemsRead(c, got, OutputCalls(calls[1..], supply, q.issued), q.nextIndex);
    ItemsReadCons(c, done, calls, supply, p.issued, p.nextIndex);
    NamedCallFirst(wire, supply, p, calls, done, last);
  }

  lemma {:induction false} ReadCalls(wire: Wire, supply: nat -> string, p: Position, calls: seq<ToolCall>, done: seq<Rebuilt>, last: int)
    requires last < p.nextIndex && CallsUncut(wire, calls)
    ensures ReadsCalls(wire, supply, p, calls, done, last)
    decreases |calls|
  {
    if calls == [] {
      ReadsNone(wire, supply, p, done, last);
    } else if Blank(calls[0].name) {
      ReadCalls(wire, supply, p, calls[1..], done, last);
      ReadsUnnamed(wire, supply, p, calls, done, last);
    } else {
      ReadCalls(wire, supply, AfterCall(p, calls[0]), calls[1..], done + [CallAt(supply, p.issued, calls[0], p.nextIndex)], p.nextIndex);
      ReadsNamed(wire, supply, p, calls, done, last);
    }
  }

  lemma NumberedCons(item: Item, items: seq<Item>, index: int)
    ensures Numbered([item] + items, index) == [AsRebuilt(item, index)] + Numbered(items, index + 1)
  {
    assert ([item] + items)[1..] == items;
  }

  // ---------- the message item ----------

  /** Before the message: nothing open, and index 0 or 1 comes next. */
  predicate Fresh(p: Position, shift: int) {
    !p.messageOpen && p.messageIndex == 0 && p.nextIndex == shift && p.messageItem == ""
  }

  predicate AnyVisible(chunks: seq<string>) {
    chunks != [] && (!Blank(chunks[0]) || AnyVisible(chunks[1..]))
  }

  lemma ReasoningOnce(wire: Wire, supply: nat -> string, p: Position, chunk: string, shift: int)
    requires 0 <= shift <= 1 && Fresh(p, shift)
    ensures var one := Perform(supply, p, Reasoning(chunk));
            Fresh(one.pos, if Blank(chunk) then shift else 1) && ReadAll(wire, NewClient, one.events) == NewClient
  {
    if !Blank(chunk) {
      ReadOne(wire, NewClient, Perform(supply, p, Reasoning(chunk)).events[0]);
    }
  }

  /** Reasoning deltas add no item; a visible one claims index 0, once. */
  lemma {:induction false} ReasoningShifts(wire: Wire, supply: nat -> string, p: Position, chunks: seq<string>, shift: int)
    requires 0 <= shift <= 1 && Fresh(p, shift)
    ensures var o := PerformAll(supply, p, ReasoningOps(chunks));
            Fresh(o.pos, if AnyVisible(chunks) then 1 else shift) && ReadAll(wire, NewClient, o.events) == NewClient
    decreases |chunks|
  {
    if chunks != [] {
      var rest := ReasoningOps(chunks[1..]);
      assert ReasoningOps(chunks)[1..] == rest;
      var one := Perform(supply, p, Reasoning(chunks[0]));
      ReasoningOnce(wire, supply, p, chunks[0], shift);
      ReasoningShifts(wire, supply, one.pos, chunks[1..], if Blank(chunks[0]) then shift else 1);
      ReadAppend(wire, NewClient, one.events, PerformAll(supply, one.pos, rest).events);
    }
  }

  /** No piece after the first begins inside a character. */
  predicate SeamsClear(text: string, size: nat)
    requires size > 0
    decreases |text|
  {
    |text| <= size || (!(0x80 <= text[size] as int < 0xC0) && SeamsClear(text[size..], size))
  }

  /** A text with a visible character has a piece with one; and no other text has,
      unless a piece begins inside a character. */
  lemma VisibleChunk(text: string, size: nat)
    requires size > 0
    ensures !Blank(text) ==> AnyVisible(Chunks(text, size))
    ensures SeamsClear(text, size) ==> (AnyVisible(Chunks(text, size)) <==> !Blank(text))
  {
    if |text| > size {
      VisibleCut(text, size);
    } else {
      assert [text][1..] == [];
    }
  }

  lemma {:induction false} VisibleCut(text: string, size: nat)
    requires size > 0
    ensures !Blank(text) ==> AnyVisible(Cut(text, size))
    ensures SeamsClear(text, size) ==> (AnyVisible(Cut(text, size)) <==> !Blank(text))
    decreases |text|
  {
    if text == "" {
      BlankMeansSpaces(text);
    } else if |text| <= size {
      assert [text][1..] == [];
    } else {
      var head, tail := text[..size], text[size..];
      VisibleCut(tail, size);
      BlankSplit(head, tail);
      assert text == head + tail;
      assert Cut(text, size)[1..] == Cut(tail, size);
    }
  }

  /** The open message after some of its text. */
  function OpenPosition(supply: nat -> string, p: Position): Position
    requires !p.messageOpen
  {
    Raised(Ensure(supply, p).pos)
  }

  function OpenClient(supply: nat -> string, p: Position, gathered: string): Client
    requires !p.messageOpen
  {
    var o := Ensure(supply, p).pos;
    Client([], Some(MessageItem(o.messageItem, "", "")), o.messageIndex, gathered)
  }

  lemma ReadEnsure(wire: Wire, supply: nat -> string, p: Position)
    requires !p.messageOpen && p.nextIndex >= 0
    ensures var o := Ensure(supply, p);
            ReadAll(wire, NewClient, o.events) == OpenClient(supply, p, "") && Raised(o.pos) == o.pos
  {
    var o := Ensure(supply, p);
    assert o.events[1..] == [o.events[1]];
    ReadOne(wire, React(wire, NewClient, o.events[0]), o.events[1]);
  }

  /** Text deltas of an open message are gathered in order. */
  lemma {:induction false} ReadTexts(wire: Wire, supply: nat -> string, p: Position, c: Client, chunks: seq<string>)
    requires p.messageOpen && p.nextIndex > p.messageIndex && Whole(wire, chunks)
    requires Receives(c, p.messageItem, p.messageIndex) && c.open.value.MessageItem?
    ensures var o := PerformAll(supply, p, TextOps(chunks));
            o.pos == p && ReadAll(wire, c, o.events) == c.(gathered := c.gathered + Concat(chunks))
    decreases |chunks|
  {
    if chunks == [] {
      assert c.gathered + "" == c.gathered;
    } else {
      var next := c.(gathered := c.gathered + chunks[0]);
      ReadTexts(wire, supply, p, next, chunks[1..]);
      TextFirst(wire, supply, p, c, chunks);
      Assoc(c.gathered, chunks[0], Concat(chunks[1..]));
    }
  }

  /** One piece of text is gathered before the others. */
  lemma TextFirst(wire: Wire, supply: nat -> string, p: Position, c: Client, chunks: seq<string>)
    requires p.messageOpen && p.nextIndex > p.messageIndex && chunks != [] && wire(chunks[0]) == chunks[0]
    requires Receives(c, p.messageItem, p.messageIndex) && c.open.value.MessageItem?
    ensures var o, more := PerformAll(supply, p, TextOps(chunks)), PerformAll(supply, p, TextOps(chunks[1..]));
            o.pos == more.pos && ReadAll(wire, c, o.events) == ReadAll(wire, c.(gathered := c.gathered + chunks[0]), more.events)
  {
    var ops := TextOps(chunks);
    assert ops[1..] == TextOps(chunks[1..]);
    var one := Perform(supply, p, ops[0]);
    TextOnce(wire, supply, p, c, chunks[0]);
    ReadAppend(wire, c, one.events, PerformAll(supply, p, ops[1..]).events);
  }

  lemma TextOnce(wire: Wire, supply: nat -> string, p: Position, c: Client, chunk: string)
    requires p.messageOpen && p.nextIndex > p.messageIndex && wire(chunk) == chunk
    requires Receives(c, p.messageItem, p.messageIndex) && c.open.value.MessageItem?
    ensures var one := Perform(supply, p, TextPiece(chunk));
            one.pos == p && ReadAll(wire, c, one.events) == c.(gathered := c.gathered + chunk)
  {
    var one := Perform(supply, p, TextPiece(chunk));
    if chunk == "" {
      assert c.gathered + chunk == c.gathered;
    } else {
      assert one.events == [TextDelta(p.messageItem, p.messageIndex, chunk)];
      ReadOne(wire, c, one.events[0]);
    }
  }

  /** The first visible piece of text opens the message, the others go on. */
  lemma FirstTexts(wire: Wire, supply: nat -> string, p: Position, chunks: seq<string>)
    requires !p.messageOpen && p.nextIndex >= 0 && chunks != [] && chunks[0] != "" && Whole(wire, chunks)
    ensures var o := PerformAll(supply, p, TextOps(chunks));
            o.pos == OpenPosition(supply, p) && ReadAll(wire, NewClient, o.events) == OpenClient(supply, p, Concat(chunks))
  {
    var ops := TextOps(chunks);
    assert ops[1..] == TextOps(chunks[1..]);
    var one := Perform(supply, p, ops[0]);
    ReadEnsure(wire, supply, p);
    var e := Ensure(supply, p);
    var delta := TextDelta(e.pos.messageItem, e.pos.messageIndex, chunks[0]);
    ReadAppend(wire, NewClient, e.events, [delta]);
    ReadOne(wire, OpenClient(supply, p, ""), delta);
    assert "" + chunks[0] == chunks[0];
    ReadTexts(wire, supply, one.pos, OpenClient(supply, p, chunks[0]), chunks[1..]);
    ReadAppend(wire, NewClient, one.events, PerformAll(supply, one.pos, ops[1..]).events);
  }

  lemma ReadClose(wire: Wire, c: Client, p: Position, text: string, reasoning: string)
    requires c.Client? && c.open == Some(MessageItem(p.messageItem, "", "")) && c.index == p.messageIndex && c.done == []
    requires c.gathered == text || (c.gathered == "" && Blank(text))
    ensures ReadAll(wire, c, CloseEvents(p, text, reasoning))
            == Client([GotMessage(p.messageIndex, text, Visible(reasoning))], None, p.messageIndex, "")
  {
    ReadThree(wire, c, TextDone(p.messageItem, p.messageIndex, text, reasoning),
              PartDone(p.messageItem, p.messageIndex, text, Visible(reasoning)),
              ItemDone(p.messageIndex, MessageItem(p.messageItem, text, Visible(reasoning))));
    assert [] + [GotMessage(p.messageIndex, text, Visible(reasoning))] == [GotMessage(p.messageIndex, text, Visible(reasoning))];
  }

  lemma PerformLast(supply: nat -> string, p: Position, ops: seq<Op>, last: Op)
    ensures var before := PerformAll(supply, p, ops);
            var end := Perform(supply, before.pos, last);
            PerformAll(supply, p, ops + [last]) == Outcome(end.pos, before.events + end.events)
  {
    var before := PerformAll(supply, p, ops);
    var end := Perform(supply, before.pos, last);
    PerformAppend(supply, p, ops, [last]);
    assert [last][1..] == [];
    assert PerformAll(supply, before.pos, [last]) == Outcome(end.pos, end.events + []);
    assert end.events + [] == end.events;
  }

  lemma TextsThenClose(wire: Wire, supply: nat -> string, p: Position, text: string, reasoning: string)
    requires !p.messageOpen && p.nextIndex >= 0 && Whole(wire, Chunks(text, CHUNK))
    ensures var o := PerformAll(supply, p, TextOps(Chunks(text, CHUNK)) + [Close(text, reasoning)]);
            !o.pos.messageOpen && o.pos.nextIndex == p.nextIndex + 1 &&
            ReadAll(wire, NewClient, o.events) == Client([GotMessage(p.nextIndex, text, Visible(reasoning))], None, p.nextIndex, "")
  {
    var chunks := Chunks(text, CHUNK);
    ChunksJoin(text, CHUNK);
    var texts := PerformAll(supply, p, TextOps(chunks));
    var close := Perform(supply, texts.pos, Close(text, reasoning));
    PerformLast(supply, p, TextOps(chunks), Close(text, reasoning));
    ReadAppend(wire, NewClient, texts.events, close.events);
    ReadEnsure(wire, supply, p);
    var e := Ensure(supply, p);
    if chunks == [] {
      ReadAppend(wire, NewClient, e.events, CloseEvents(e.pos, text, reasoning));
      ReadClose(wire, OpenClient(supply, p, ""), e.pos, text, reasoning);
    } else {
      FirstTexts(wire, supply, p, chunks);
      assert close.events == [] + CloseEvents(e.pos, text, reasoning) == CloseEvents(e.pos, text, reasoning);
      ReadClose(wire, OpenClient(supply, p, text), e.pos, text, reasoning);
    }
  }

  /** One if some piece of the thinking is visible. */
  function Shift(r: Response): int { if AnyVisible(Chunks(r.thinking, CHUNK)) then 1 else 0 }

  lemma ReadMessage(wire: Wire, supply: nat -> string, p: Position, r: Response)
    requires Fresh(p, 0) && HasMessage(r) && Whole(wire, Chunks(r.text, CHUNK))
    ensures var o := PerformAll(supply, p, MessageOps(r));
            !o.pos.messageOpen && o.pos.nextIndex == Shift(r) + 1 &&
            ReadAll(wire, NewClient, o.events) == Client([GotMessage(Shift(r), r.text, Visible(r.thinking))], None, Shift(r), "")
  {
    var thoughts := ReasoningOps(Chunks(r.thinking, CHUNK));
    var rest := TextOps(Chunks(r.text, CHUNK)) + [Close(r.text, r.thinking)];
    ReasoningShifts(wire, supply, p, Chunks(r.thinking, CHUNK), 0);
    var q := PerformAll(supply, p, thoughts);
    TextsThenClose(wire, supply, q.pos, r.text, r.thinking);
    PerformAppend(supply, p, thoughts, rest);
    ReadAppend(wire, NewClient, q.events, PerformAll(supply, q.pos, rest).events);
  }

  lemma ReadChain(wire: Wire, c: Client, a: seq<Event>, b: seq<Event>, d: seq<Event>, last: Event)
    ensures ReadAll(wire, c, (a + (b + d)) + [last]) == React(wire, ReadAll(wire, ReadAll(wire, ReadAll(wire, c, a), b), d), last)
  {
    ReadAppend(wire, c, a + (b + d), [last]);
    ReadAppend(wire, c, a, b + d);
    ReadAppend(wire, ReadAll(wire, c, a), b, d);
    ReadOne(wire, ReadAll(wire, ReadAll(wire, ReadAll(wire, c, a), b), d), last);
  }

  /** The stream as its three stages. */
  lemma TraceStages(supply: nat -> string, r: Response)
    ensures var started := Perform(supply, Initial, Start);
            var messages := PerformAll(supply, started.pos, MessageOps(r));
            var calls := PerformAll(supply, messages.pos, CallOps(r.toolCalls));
            PerformAll(supply, Initial, Ops(r)).events == started.events + (messages.events + calls.events)
  {
    assert Ops(r)[1..] == MessageOps(r) + CallOps(r.toolCalls);
    PerformAppend(supply, Perform(supply, Initial, Start).pos, MessageOps(r), CallOps(r.toolCalls));
  }

  function AfterMessage(supply: nat -> string, r: Response): Outcome {
    PerformAll(supply, Initial.(started := true), MessageOps(r))
  }

  lemma TraceRead(wire: Wire, supply: nat -> string, r: Response, answerIds: nat -> string)
    ensures var messages := AfterMessage(supply, r);
            ReadAll(wire, NewClient, StreamTrace(supply, r, answerIds))
            == React(wire, ReadAll(wire, ReadAll(wire, NewClient, messages.events),
                                   PerformAll(supply, messages.pos, CallOps(r.toolCalls)).events),
                     Completed(Output(r, answerIds), r.text))
  {
    var started := Perform(supply, Initial, Start);
    var messages := AfterMessage(supply, r);
    TraceStages(supply, r);
    ReadChain(wire, NewClient, started.events, messages.events, PerformAll(supply, messages.pos, CallOps(r.toolCalls)).events,
              Completed(Output(r, answerIds), r.text));
    ReadTwo(wire, NewClient, Created, InProgress);
  }

  /** The client after the calls, given what it made of everything before. */
  lemma ReadStages(wire: Wire, supply: nat -> string, r: Response, answerIds: nat -> string, done: seq<Rebuilt>, last: int)
    requires CallsUncut(wire, r.toolCalls)
    requires var messages := AfterMessage(supply, r);
             last < messages.pos.nextIndex && ReadAll(wire, NewClient, messages.events) == Client(done, None, last, "")
    ensures var messages := AfterMessage(supply, r);
            ItemsRead(ReadAll(wire, NewClient, StreamTrace(supply, r, answerIds)), done,
                      OutputCalls(r.toolCalls, supply, messages.pos.issued), messages.pos.nextIndex)
  {
    var p, last' := AfterMessage(supply, r).pos, Completed(Output(r, answerIds), r.text);
    var c := AfterCalls(wire, supply, p, r.toolCalls, done, last);
    TraceRead(wire, supply, r, answerIds);
    assert ReadAll(wire, NewClient, StreamTrace(supply, r, answerIds)) == React(wire, c, last');
    ReadCalls(wire, supply, p, r.toolCalls, done, last);
    ReadCompleted(wire, c, last', done, OutputCalls(r.toolCalls, supply, p.issued), p.nextIndex);
  }

  lemma ReadCompleted(wire: Wire, c: Client, e: Event, done: seq<Rebuilt>, items: seq<Item>, index: int)
    requires e.Completed? && ItemsRead(c, done, items, index)
    ensures ItemsRead(React(wire, c, e), done, items, index)
  {
  }

  /** The items that are streamed: those of the answer with the stream's own
      fresh ids, and without blank reasoning. */
  function Streamed(supply: nat -> string, r: Response): seq<Item> {
    var calls := OutputCalls(r.toolCalls, supply, AfterMessage(supply, r).pos.issued);
    if HasMessage(r) then [MessageItem(r.id, r.text, Visible(r.thinking))] + calls else calls
  }

  function FirstIndex(r: Response): int {
    if HasMessage(r) then Shift(r) else 0
  }

  /** No text or arguments are cut inside a rune. */
  ghost predicate Uncut(wire: Wire, r: Response) {
    Whole(wire, Chunks(r.text, CHUNK)) && CallsUncut(wire, r.toolCalls)
  }

  lemma AsciiUncut(wire: Wire, r: Response)
    requires KeepsAscii(wire) && Ascii(r.text) && forall i :: 0 <= i < |r.toolCalls| ==> Ascii(Arguments(r.toolCalls[i]))
    ensures Uncut(wire, r)
  {
    AsciiWhole(wire, r.text, CHUNK);
    forall i | 0 <= i < |r.toolCalls| ensures CallUncut(wire, r.toolCalls[i]) {
      AsciiWhole(wire, Arguments(r.toolCalls[i]), CHUNK);
    }
  }

  /** Every stream is accepted by the strict client, which rebuilds the streamed
      items in order, at consecutive output indices that begin at one exactly
      when there is visible thinking. */
  lemma ItemsRebuilt(wire: Wire, supply: nat -> string, r: Response, answerIds: nat -> string)
    requires Uncut(wire, r)
    ensures ItemsRead(ReadAll(wire, NewClient, StreamTrace(supply, r, answerIds)), [], Streamed(supply, r), FirstIndex(r))
  {
    if HasMessage(r) {
      var got := GotMessage(Shift(r), r.text, Visible(r.thinking));
      ReadMessage(wire, supply, Initial.(started := true), r);
      ReadStages(wire, supply, r, answerIds, [got], Shift(r));
      var outputs := OutputCalls(r.toolCalls, supply, AfterMessage(supply, r).pos.issued);
      NumberedCons(MessageItem(r.id, r.text, Visible(r.thinking)), outputs, Shift(r));
      assert [] + Numbered(Streamed(supply, r), Shift(r)) == [got] + Numbered(outputs, Shift(r) + 1);
    } else {
      ReadStages(wire, supply, r, answerIds, [], -1);
    }
  }

  predicate IdsGiven(calls: seq<ToolCall>) {
    forall i :: 0 <= i < |calls| ==> Blank(calls[i].name) || !Blank(calls[i].id)
  }

  /** Two sources of fresh ids that never give the same one. */
  ghost predicate NeverSame(a: nat -> string, b: nat -> string) {
    forall i, j :: a(i) != b(j)
  }

  /** Call items do not depend on the fresh ids exactly when none is taken. */
  lemma {:induction false} CallsAlike(calls: seq<ToolCall>, a: nat -> string, i: nat, b: nat -> string, j: nat, index: int)
    requires NeverSame(a, b)
    ensures Numbered(OutputCalls(calls, a, i), index) == Numbered(OutputCalls(calls, b, j), index) <==> IdsGiven(calls)
    decreases |calls|
  {
    if calls != [] {
      var call, rest := calls[0], calls[1..];
      GivenFirst(calls);
      if Blank(call.name) {
        CallsAlike(rest, a, i, b, j, index);
      } else {
        CallsAlike(rest, a, IssuedAfter(i, call), b, IssuedAfter(j, call), index + 1);
        OutputNamed(calls, a, i, index);
        OutputNamed(calls, b, j, index);
        IdsApart(a(i), b(j));
        SameCons(CallAt(a, i, call, index), Numbered(OutputCalls(rest, a, IssuedAfter(i, call)), index + 1),
                 CallAt(b, j, call, index), Numbered(OutputCalls(rest, b, IssuedAfter(j, call)), index + 1));
      }
    }
  }

  lemma GivenFirst(calls: seq<ToolCall>)
    requires calls != []
    ensures IdsGiven(calls) <==> (Blank(calls[0].name) || !Blank(calls[0].id)) && IdsGiven(calls[1..])
  {
    assert forall i :: 0 < i < |calls| ==> calls[i] == calls[1..][i - 1];
  }

  lemma IdsApart(x: string, y: string)
    requires x != y
    ensures "fc_" + x != "fc_" + y
  {
    assert ("fc_" + x)[3..] == x && ("fc_" + y)[3..] == y;
  }

  /** The client rebuilds the items of the non-streamed answer, by kind, text and
      reasoning, call id, name and arguments, in order and at their positions
      there, shifted by one exactly when there is visible thinking; and it does
      so if and only if every named call carries an id and no message has blank
      reasoning that is not empty. */
  lemma ItemsAsAnswered(wire: Wire, supply: nat -> string, r: Response, answerIds: nat -> string)
    requires NeverSame(supply, answerIds) && Uncut(wire, r)
    ensures ItemsRead(ReadAll(wire, NewClient, StreamTrace(supply, r, answerIds)), [], Output(r, answerIds), FirstIndex(r))
            <==> IdsGiven(r.toolCalls) && (HasMessage(r) && Blank(r.thinking) ==> r.thinking == "")
  {
    ItemsRebuilt(wire, supply, r, answerIds);
    var index := FirstIndex(r);
    assert [] + Numbered(Streamed(supply, r), index) == Numbered(Streamed(supply, r), index);
    assert [] + Numbered(Output(r, answerIds), index) == Numbered(Output(r, answerIds), index);
    SameItems(supply, r, answerIds, index);
  }

  /** What is streamed is what is answered, but for fresh ids and blank reasoning. */
  lemma SameItems(supply: nat -> string, r: Response, answerIds: nat -> string, index: int)
    requires NeverSame(supply, answerIds)
    ensures Numbered(Streamed(supply, r), index) == Numbered(Output(r, answerIds), index)
            <==> IdsGiven(r.toolCalls) && (HasMessage(r) && Blank(r.thinking) ==> r.thinking == "")
  {
    var issued := AfterMessage(supply, r).pos.issued;
    if HasMessage(r) {
      var streamed, answered := OutputCalls(r.toolCalls, supply, issued), OutputCalls(r.toolCalls, answerIds, 0);
      CallsAlike(r.toolCalls, supply, issued, answerIds, 0, index + 1);
      NumberedCons(MessageItem(r.id, r.text, Visible(r.thinking)), streamed, index);
      NumberedCons(MessageItem(r.id, r.text, r.thinking), answered, index);
      BlankNothing(r.thinking);
      SameCons(AsRebuilt(MessageItem(r.id, r.text, Visible(r.thinking)), index), Numbered(streamed, index + 1),
               AsRebuilt(MessageItem(r.id, r.text, r.thinking), index), Numbered(answered, index + 1));
    } else {
      CallsAlike(r.toolCalls, supply, issued, answerIds, 0, index);
    }
  }

  lemma SameCons<T>(x: T, xs: seq<T>, y: T, ys: seq<T>)
    ensures [x] + xs == [y] + ys <==> x == y && xs == ys
  {
    assert ([x] + xs)[1..] == xs && ([y] + ys)[1..] == ys;
    assert ([x] + xs)[0] == x && ([y] + ys)[0] == y;
  }

  lemma BlankNothing(reasoning: string)
    ensures Visible(reasoning) == reasoning <==> (Blank(reasoning) ==> reasoning == "")
  {
  }

  /** A line feed as thinking is in the answer and not in the streamed item. */
  lemma BlankThinkingIsLost(wire: Wire, supply: nat -> string, r: Response, answerIds: nat -> string)
    requires NeverSame(supply, answerIds) && KeepsAscii(wire) && r.text == "a" && r.thinking == "\n" && r.toolCalls == []
    ensures Output(r, answerIds) == [MessageItem(r.id, "a", "\n")]
    ensures var client := ReadAll(wire, NewClient, StreamTrace(supply, r, answerIds));
            ItemsRead(client, [], [MessageItem(r.id, "a", "")], 0) && !ItemsRead(client, [], Output(r, answerIds), 0)
  {
    BlankMeansSpaces(r.thinking);
    BlankMeansSpaces(r.text);
    assert IsSpace(r.thinking[0]) && !IsSpace(r.text[0]);
    AsciiUncut(wire, r);
    ItemsRebuilt(wire, supply, r, answerIds);
    ItemsAsAnswered(wire, supply, r, answerIds);
    assert Streamed(supply, r) == [MessageItem(r.id, "a", "")] + [];
  }
}
