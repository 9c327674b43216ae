/** What sanitising a tool history keeps and what it drops. */
module HistoryKept {
  import opened Text
  import opened Models
  import opened Conversation
  import opened ToolHistory
  import opened Layout

  // ---------- calls without an id ----------

  /** The supply never gives an id twice, and none that a call already has. */
  ghost predicate Unused(supply: nat -> string, calls: seq<ToolCall>) {
    Injective(supply) && forall i :: 0 <= i < |calls| ==> NeverFresh(supply, calls[i])
  }

  ghost predicate Injective(supply: nat -> string) {
    forall m: nat, n: nat :: supply(m) == supply(n) ==> m == n
  }

  ghost predicate NeverFresh(supply: nat -> string, call: ToolCall) {
    forall n: nat :: TrimSpace(call.id) != FreshId(supply, n)
  }

  /** No fresh id from a number on has been seen. */
  ghost predicate Ahead(supply: nat -> string, seen: set<string>, issued: nat) {
    forall n: nat :: issued <= n ==> FreshId(supply, n) !in seen
  }

  lemma FreshDiffers(supply: nat -> string, m: nat, n: nat)
    requires Injective(supply) && m != n
    ensures FreshId(supply, m) != FreshId(supply, n)
  {
    assert FreshId(supply, m)[6..] == supply(m) && FreshId(supply, n)[6..] == supply(n);
  }

  lemma AheadStays(supply: nat -> string, calls: seq<ToolCall>, seen: set<string>, issued: nat)
    requires Unused(supply, calls) && calls != [] && Ahead(supply, seen, issued)
    ensures Ahead(supply, seen + Ids(TakeOne(supply, calls[0], seen, issued)), issued + Taken(calls[0]))
  {
    var one := TakeOne(supply, calls[0], seen, issued);
    forall n: nat | issued + Taken(calls[0]) <= n ensures FreshId(supply, n) !in seen + Ids(one) {
      if one != [] {
        assert Ids(one) == {one[0].id};
        if Blank(calls[0].id) {
          FreshDiffers(supply, issued, n);
        } else {
          assert NeverFresh(supply, calls[0]);
        }
      }
    }
  }

  /** The cleaned call. */
  predicate Cleaned(c: ToolCall, call: ToolCall, id: string) {
    c.id == id && c.name == TrimSpace(call.name) && c.arguments == if Blank(call.arguments) then "{}" else call.arguments
  }

  lemma TakenIs(call: ToolCall)
    ensures Taken(call) == One(LacksID()(call))
  {
  }

  lemma FirstFresh(supply: nat -> string, calls: seq<ToolCall>, seen: set<string>, issued: nat, c: ToolCall)
    requires calls != [] && !Blank(calls[0].name) && Blank(calls[0].id) && FreshId(supply, issued) !in seen
    requires Cleaned(c, calls[0], "toolu_" + supply(issued))
    ensures c in FilterCalls(supply, calls, seen, issued)
  {
    var one := TakeOne(supply, calls[0], seen, issued);
    assert c == one[0];
    assert c in one + FilterCalls(supply, calls[1..], seen + Ids(one), issued + Taken(calls[0]));
  }

  lemma UnusedRest(supply: nat -> string, calls: seq<ToolCall>)
    requires Unused(supply, calls) && calls != []
    ensures Unused(supply, calls[1..])
  {
    assert forall i :: 0 <= i < |calls[1..]| ==> calls[1..][i] == calls[i + 1];
  }

  /** The call at k waits for the fresh id of this number. */
  ghost predicate Waits(supply: nat -> string, calls: seq<ToolCall>, seen: set<string>, issued: nat, k: nat, nth: nat, c: ToolCall) {
    && k < |calls| && Taken(calls[k]) == 1 && c == CleanCall(supply, calls[k], nth)
    && nth == issued + Count(LacksID(), calls, k) && Unused(supply, calls) && Ahead(supply, seen, issued)
  }

  lemma WaitsLater(supply: nat -> string, calls: seq<ToolCall>, seen: set<string>, issued: nat, k: nat, nth: nat, c: ToolCall)
      returns (now: nat, after: set<string>)
    requires k > 0 && Waits(supply, calls, seen, issued, k, nth, c)
    ensures |calls| > 0 && now == issued + Taken(calls[0]) && after == seen + Ids(TakeOne(supply, calls[0], seen, issued))
    ensures Waits(supply, calls[1..], after, now, k - 1, nth, c)
  {
    now, after := issued + Taken(calls[0]), seen + Ids(TakeOne(supply, calls[0], seen, issued));
    AheadStays(supply, calls, seen, issued);
    NumberInRest(calls, issued, now, k, nth);
    UnusedRest(supply, calls);
    assert calls[1..][k - 1] == calls[k];
  }

  lemma FirstWaits(supply: nat -> string, calls: seq<ToolCall>, seen: set<string>, issued: nat, nth: nat, c: ToolCall)
    requires Waits(supply, calls, seen, issued, 0, nth, c)
    ensures c in FilterCalls(supply, calls, seen, issued)
  {
    FirstFresh(supply, calls, seen, issued, c);
  }

  lemma WaitsInRest(supply: nat -> string, calls: seq<ToolCall>, seen: set<string>, issued: nat, k: nat, nth: nat, c: ToolCall)
      returns (rest: seq<ToolCall>, now: nat, after: set<string>)
    requires k > 0 && Waits(supply, calls, seen, issued, k, nth, c)
    ensures var before: nat := k - 1; Waits(supply, rest, after, now, before, nth, c)
    ensures c in FilterCalls(supply, rest, after, now) ==> c in FilterCalls(supply, calls, seen, issued)
  {
    now, after := WaitsLater(supply, calls, seen, issued, k, nth, c);
    rest := calls[1..];
    if c in FilterCalls(supply, rest, after, now) {
      LaterKept(supply, calls, seen, issued, rest, after, now, c);
    }
  }

  lemma {:induction false} WaitingKept(supply: nat -> string, calls: seq<ToolCall>, seen: set<string>, issued: nat, k: nat, nth: nat, c: ToolCall)
    requires Waits(supply, calls, seen, issued, k, nth, c)
    ensures c in FilterCalls(supply, calls, seen, issued)
    decreases k
  {
    if k == 0 {
      FirstWaits(supply, calls, seen, issued, nth, c);
    } else {
      var before: nat := k - 1;
      var rest, now, after := WaitsInRest(supply, calls, seen, issued, k, nth, c);
      WaitingKept(supply, rest, after, now, before, nth, c);
    }
  }

  /** Every named call without an id is kept, with the next fresh id. */
  lemma FreshKept(supply: nat -> string, calls: seq<ToolCall>, seen: set<string>, issued: nat, k: nat, nth: nat, c: ToolCall)
    requires k < |calls| && LacksID()(calls[k]) && Cleaned(c, calls[k], "toolu_" + supply(nth))
    requires nth == issued + Count(LacksID(), calls, k) && Unused(supply, calls) && Ahead(supply, seen, issued)
    ensures c in FilterCalls(supply, calls, seen, issued)
  {
    WaitingKept(supply, calls, seen, issued, k, nth, c);
  }

  lemma NumberInRest(calls: seq<ToolCall>, issued: nat, now: nat, k: nat, nth: nat)
    requires 1 <= k <= |calls| && now == issued + Taken(calls[0]) && nth == issued + Count(LacksID(), calls, k)
    ensures nth == now + Count(LacksID(), calls[1..], k - 1)
  {
    TakenIs(calls[0]);
    CountFront(LacksID(), calls, k);
  }

  lemma LaterKept(supply: nat -> string, calls: seq<ToolCall>, seen: set<string>, issued: nat, rest: seq<ToolCall>, after: set<string>, now: nat,
                  c: ToolCall)
    requires calls != [] && rest == calls[1..] && now == issued + Taken(calls[0]) && after == seen + Ids(TakeOne(supply, calls[0], seen, issued))
    requires c in FilterCalls(supply, rest, after, now)
    ensures c in FilterCalls(supply, calls, seen, issued)
  {
    Unrolled(supply, calls, seen, issued, TakeOne(supply, calls[0], seen, issued), FilterCalls(supply, rest, after, now));
  }

  // ---------- calls with an id ----------

  /** The only call with its id, which is no fresh one. */
  ghost predicate OnlyCall(supply: nat -> string, calls: seq<ToolCall>, c: ToolCall) {
    NeverFresh(supply, c) && forall d :: d in calls && TrimSpace(d.id) == TrimSpace(c.id) ==> d == c
  }

  predicate Arrives(calls: seq<ToolCall>, c: ToolCall) {
    exists d :: d in calls && Cleaned(d, c, TrimSpace(c.id))
  }

  /** It is kept with its id, its name and its arguments. */
  lemma {:induction false} OnlyKept(supply: nat -> string, calls: seq<ToolCall>, seen: set<string>, issued: nat, c: ToolCall)
    requires c in calls && !Blank(c.name) && !Blank(c.id) && TrimSpace(c.id) !in seen && OnlyCall(supply, calls, c)
    ensures Arrives(FilterCalls(supply, calls, seen, issued), c)
    decreases |calls|
  {
    var one, next := TakeOne(supply, calls[0], seen, issued), issued + Taken(calls[0]);
    var after := seen + Ids(one);
    var rest := FilterCalls(supply, calls[1..], after, next);
    if calls[0] == c {
      assert one[0] in one + rest;
    } else {
      OthersTaken(supply, calls, seen, issued, c);
      OnlyKept(supply, calls[1..], after, next, c);
      var d :| d in rest && Cleaned(d, c, TrimSpace(c.id));
      assert d in one + rest;
    }
  }

  lemma OthersTaken(supply: nat -> string, calls: seq<ToolCall>, seen: set<string>, issued: nat, c: ToolCall)
    requires calls != [] && calls[0] != c && OnlyCall(supply, calls, c) && TrimSpace(c.id) !in seen
    ensures TrimSpace(c.id) !in seen + Ids(TakeOne(supply, calls[0], seen, issued))
  {
    assert calls[0] in calls;
    assert TrimSpace(c.id) != FreshId(supply, issued);
  }

  // ---------- messages with nothing left ----------

  /** There is something in an assistant message. */
  ghost predicate Worth(v: Variant, m: Message) {
    m.toolCalls != [] || Shows(m.content) || (v == AnthropicCodec && m.thinkingBlocks != [])
  }

  /** No kept assistant message has lost all it had: one with neither calls nor
      anything visible had no calls to begin with. */
  lemma {:induction false} NothingEmptyKept(v: Variant, supply: nat -> string, s: Seen, messages: seq<Message>, m: Message)
    requires m in SanitizeFrom(v, supply, s, messages) && m.role == Assistant
    ensures Worth(v, m) || m in messages
    decreases |messages|
  {
    var step := SanitizeMessage(v, supply, s, messages[0]);
    ContentShows(m.content);
    if m !in step.kept {
      NothingEmptyKept(v, supply, step.seen, messages[1..], m);
    }
  }

  /** And one that is worth keeping is kept, with the calls that are left. */
  lemma {:induction false} WorthIsKept(v: Variant, supply: nat -> string, s: Seen, messages: seq<Message>, k: nat) returns (m: Message)
    requires k < |messages| && messages[k].role == Assistant && messages[k].toolCalls != []
    requires Shows(messages[k].content) || (v == AnthropicCodec && messages[k].thinkingBlocks != [])
    ensures m in SanitizeFrom(v, supply, s, messages) && m == messages[k].(toolCalls := m.toolCalls)
    decreases |messages|
  {
    var step := SanitizeMessage(v, supply, s, messages[0]);
    if k == 0 {
      ContentShows(messages[0].content);
      m := step.kept[0];
    } else {
      m := WorthIsKept(v, supply, step.seen, messages[1..], k - 1);
    }
    assert forall x :: x in step.kept ==> x in step.kept + SanitizeFrom(v, supply, step.seen, messages[1..]);
  }
}
