/** The rules that the validator enforces, said of the conversation itself: which
    conversations it accepts, and which rule a rejected one breaks first. */
module ValidationRules {
  import opened Text
  import opened Models
  import opened Conversation
  import opened Validation

  // ---------- the rules ----------

  /** Some assistant message declares the id. */
  ghost predicate Declared(history: seq<Message>, id: string) {
    exists i, j :: 0 <= i < |history| && history[i].role == Assistant && 0 <= j < |history[i].toolCalls| && TrimSpace(history[i].toolCalls[j].id) == id
  }

  /** Some message holds a result for the id. */
  ghost predicate Answered(history: seq<Message>, id: string) {
    exists i :: 0 <= i < |history| && ResultBefore(ContentResultIds(history[i].content), |ContentResultIds(history[i].content)|, id)
  }

  predicate ResultBefore(ids: seq<string>, n: nat, id: string)
    requires n <= |ids|
  {
    exists i :: 0 <= i < n && TrimSpace(ids[i]) == id
  }

  /** Every image has data or a URL. */
  predicate ImagesGood(m: Message) {
    forall i :: 0 <= i < |ContentImages(m.content)| ==>
      !Blank(ContentImages(m.content)[i].data) || !Blank(ContentImages(m.content)[i].url)
  }

  predicate CallGood(call: ToolCall) {
    !Blank(call.id) && !Blank(call.name)
  }

  /** A result names a call; the first one for an id is not an assistant's, and a
      tool message answers only what was declared before. */
  ghost predicate ResultGood(history: seq<Message>, m: Message, j: nat)
    requires j < |ContentResultIds(m.content)|
  {
    var ids := ContentResultIds(m.content);
    var id := TrimSpace(ids[j]);
    id != "" &&
    (Answered(history, id) || ResultBefore(ids, j, id) || (m.role != Assistant && (m.role == Tool ==> Declared(history, id))))
  }

  ghost predicate CallsGood(m: Message) {
    m.role == Assistant ==> forall i :: 0 <= i < |m.toolCalls| ==> CallGood(m.toolCalls[i])
  }

  ghost predicate ResultsGood(history: seq<Message>, m: Message) {
    forall j :: 0 <= j < |ContentResultIds(m.content)| ==> ResultGood(history, m, j)
  }

  ghost predicate MessageGood(history: seq<Message>, m: Message) {
    ImagesGood(m) && CallsGood(m) && ResultsGood(history, m) && (m.role == Tool ==> m.toolCalls == [])
  }

  /** What is wrong with a message behind a history. */
  ghost predicate Breaks(history: seq<Message>, m: Message, v: Verdict) {
    match v
    case Accepted => false
    case ImageSource => !ImagesGood(m)
    case CallIdMissing => ImagesGood(m) && m.role == Assistant && exists i :: FirstBadCall(m.toolCalls, i) && Blank(m.toolCalls[i].id)
    case CallNameMissing => ImagesGood(m) && m.role == Assistant && exists i :: FirstBadCall(m.toolCalls, i) && !Blank(m.toolCalls[i].id)
    case ResultIdMissing => ImagesGood(m) && CallsGood(m) && exists j :: FirstBadResult(history, m, j) && Blank(ContentResultIds(m.content)[j])
    case AssistantResult => ImagesGood(m) && CallsGood(m) && m.role == Assistant && exists j :: FirstBadResult(history, m, j)
    case Undeclared(id) =>
      ImagesGood(m) && m.role == Tool && exists j :: FirstBadResult(history, m, j) && TrimSpace(ContentResultIds(m.content)[j]) == id
    case ToolDeclares => ImagesGood(m) && ResultsGood(history, m) && m.role == Tool && m.toolCalls != []
  }

  ghost predicate FirstBadCall(calls: seq<ToolCall>, i: int) {
    0 <= i < |calls| && !CallGood(calls[i]) && forall k :: 0 <= k < i ==> CallGood(calls[k])
  }

  ghost predicate FirstBadResult(history: seq<Message>, m: Message, j: int) {
    0 <= j < |ContentResultIds(m.content)| && !ResultGood(history, m, j) && forall k :: 0 <= k < j ==> ResultGood(history, m, k)
  }

  // ---------- one message ----------

  lemma {:induction false} CallsChecked(calls: seq<ToolCall>)
    ensures CheckCalls(calls) == Accepted <==> forall i :: 0 <= i < |calls| ==> CallGood(calls[i])
    ensures CheckCalls(calls) != Accepted ==>
              exists i :: FirstBadCall(calls, i) && CheckCalls(calls) == if Blank(calls[i].id) then CallIdMissing else CallNameMissing
    decreases |calls|
  {
    if calls != [] {
      var rest := calls[1..];
      CallsChecked(rest);
      assert forall i :: 0 < i < |calls| ==> calls[i] == rest[i - 1];
      if !CallGood(calls[0]) {
        assert FirstBadCall(calls, 0);
      } else if CheckCalls(rest) != Accepted {
        var i :| FirstBadCall(rest, i) && CheckCalls(rest) == if Blank(rest[i].id) then CallIdMissing else CallNameMissing;
        assert FirstBadCall(calls, i + 1);
      } else {
        assert forall i :: 0 <= i < |rest| ==> rest[i] == calls[i + 1];
      }
    }
  }

  /** The results' rule over the validator's sets. */
  predicate ResultOk(role: Role, declared: set<string>, seen: set<string>, ids: seq<string>, j: nat)
    requires j < |ids|
  {
    var id := TrimSpace(ids[j]);
    id != "" && (id in seen || ResultBefore(ids, j, id) || (role != Assistant && (role == Tool ==> id in declared)))
  }

  ghost predicate FirstNotOk(role: Role, declared: set<string>, seen: set<string>, ids: seq<string>, j: nat) {
    j < |ids| && !ResultOk(role, declared, seen, ids, j) && forall k :: 0 <= k < j ==> ResultOk(role, declared, seen, ids, k)
  }

  function VerdictFor(role: Role, id: string): Verdict {
    if id == "" then ResultIdMissing else if role == Assistant then AssistantResult else Undeclared(id)
  }

  lemma BeforeInRest(ids: seq<string>, j: nat, id: string)
    requires 1 <= j <= |ids|
    ensures ResultBefore(ids, j, id) <==> TrimSpace(ids[0]) == id || ResultBefore(ids[1..], j - 1, id)
  {
    if ResultBefore(ids, j, id) {
      var i :| 0 <= i < j && TrimSpace(ids[i]) == id;
      if i > 0 {
        assert ids[1..][i - 1] == ids[i];
      }
    }
    if ResultBefore(ids[1..], j - 1, id) {
      var i :| 0 <= i < j - 1 && TrimSpace(ids[1..][i]) == id;
      assert ids[i + 1] == ids[1..][i];
    }
  }

  lemma OkInRest(role: Role, declared: set<string>, seen: set<string>, ids: seq<string>, j: nat, now: set<string>)
    requires 1 <= j < |ids| && (now == seen + {TrimSpace(ids[0])})
    ensures ResultOk(role, declared, seen, ids, j) <==> ResultOk(role, declared, now, ids[1..], j - 1)
  {
    BeforeInRest(ids, j, TrimSpace(ids[j]));
    assert ids[1..][j - 1] == ids[j];
  }

  /** The loop over results finds the first that is not ok. */
  lemma {:induction false} ResultsChecked(role: Role, declared: set<string>, seen: set<string>, ids: seq<string>) returns (bad: Option<nat>)
    ensures bad.None? ==> CheckResults(role, declared, seen, ids) == Accepted && forall j :: 0 <= j < |ids| ==> ResultOk(role, declared, seen, ids, j)
    ensures bad.Some? ==> FirstNotOk(role, declared, seen, ids, bad.value) &&
                          CheckResults(role, declared, seen, ids) == VerdictFor(role, TrimSpace(ids[bad.value]))
    decreases |ids|
  {
    bad := None;
    if ids != [] {
      var id := TrimSpace(ids[0]);
      if !ResultOk(role, declared, seen, ids, 0) {
        bad := Some(0);
      } else {
        var now := seen + {id};
        if id in seen {
          assert now == seen;
        }
        var later := ResultsChecked(role, declared, now, ids[1..]);
        forall j | 1 <= j < |ids| ensures ResultOk(role, declared, seen, ids, j) <==> ResultOk(role, declared, now, ids[1..], j - 1) {
          OkInRest(role, declared, seen, ids, j, now);
        }
        if later.Some? {
          bad := Some(later.value + 1);
        }
      }
    }
  }

  /** The validator's sets are what the history declares and answers. */
  ghost predicate Tracks(declared: set<string>, seen: set<string>, history: seq<Message>) {
    (forall id :: id in declared <==> Declared(history, id)) && (forall id :: id in seen <==> Answered(history, id))
  }

  lemma OkIsGood(declared: set<string>, seen: set<string>, history: seq<Message>, m: Message, j: nat)
    requires Tracks(declared, seen, history) && j < |ContentResultIds(m.content)|
    ensures ResultOk(m.role, DeclaredWith(declared, m), seen, ContentResultIds(m.content), j) <==> ResultGood(history, m, j)
  {
  }

  /** The check of one message: its verdict is a rule that it breaks, if it breaks any. */
  lemma MessageChecked(declared: set<string>, seen: set<string>, history: seq<Message>, m: Message)
    requires Tracks(declared, seen, history)
    ensures CheckMessage(declared, seen, m) == Accepted <==> MessageGood(history, m)
    ensures CheckMessage(declared, seen, m) != Accepted ==> Breaks(history, m, CheckMessage(declared, seen, m))
  {
    CallsChecked(m.toolCalls);
    var ids := ContentResultIds(m.content);
    forall j | 0 <= j < |ids| ensures ResultOk(m.role, DeclaredWith(declared, m), seen, ids, j) <==> ResultGood(history, m, j) {
      OkIsGood(declared, seen, history, m, j);
    }
    var bad := ResultsChecked(m.role, DeclaredWith(declared, m), seen, ids);
    if bad.Some? {
      assert FirstBadResult(history, m, bad.value);
    }
  }

  // ---------- the whole conversation ----------

  lemma DeclaredMore(history: seq<Message>, m: Message, id: string)
    ensures Declared(history + [m], id) <==> Declared(history, id) || (m.role == Assistant && id in TrimmedIds(m.toolCalls))
  {
    var all := history + [m];
    assert all[|history|] == m;
    assert forall i :: 0 <= i < |history| ==> all[i] == history[i];
    if Declared(all, id) {
      var i, j :| 0 <= i < |all| && all[i].role == Assistant && 0 <= j < |all[i].toolCalls| && TrimSpace(all[i].toolCalls[j].id) == id;
      if i < |history| {
        assert history[i].toolCalls[j] == all[i].toolCalls[j];
      }
    }
    if Declared(history, id) {
      var i, j :| 0 <= i < |history| && history[i].role == Assistant && 0 <= j < |history[i].toolCalls| && TrimSpace(history[i].toolCalls[j].id) == id;
      assert all[i].toolCalls[j] == history[i].toolCalls[j];
    }
    if m.role == Assistant && id in TrimmedIds(m.toolCalls) {
      var j :| 0 <= j < |m.toolCalls| && TrimSpace(m.toolCalls[j].id) == id;
      assert all[|history|].toolCalls[j] == m.toolCalls[j];
    }
  }

  lemma AnsweredMore(history: seq<Message>, m: Message, id: string)
    ensures Answered(history + [m], id) <==> Answered(history, id) || id in SeenIds(ContentResultIds(m.content))
  {
    var all, ids := history + [m], ContentResultIds(m.content);
    assert all[|history|] == m;
    assert forall i :: 0 <= i < |history| ==> all[i] == history[i];
    assert ResultBefore(ids, |ids|, id) <==> id in SeenIds(ids);
  }

  lemma TracksMore(declared: set<string>, seen: set<string>, history: seq<Message>, m: Message)
    requires Tracks(declared, seen, history)
    ensures Tracks(DeclaredWith(declared, m), seen + SeenIds(ContentResultIds(m.content)), history + [m])
  {
    forall id ensures id in DeclaredWith(declared, m) <==> Declared(history + [m], id) { DeclaredMore(history, m, id); }
    forall id ensures id in seen + SeenIds(ContentResultIds(m.content)) <==> Answered(history + [m], id) { AnsweredMore(history, m, id); }
  }

  /** From a history on: the first bad message, if there is one. */
  ghost predicate FirstBad(history: seq<Message>, messages: seq<Message>, k: nat, v: Verdict) {
    k < |messages| && Breaks(history + messages[..k], messages[k], v) && forall i :: 0 <= i < k ==> GoodAt(history, messages, i)
  }

  /** The message at i is good behind the history and those before it. */
  ghost predicate GoodAt(history: seq<Message>, messages: seq<Message>, i: nat)
    requires i < |messages|
  {
    MessageGood(history + messages[..i], messages[i])
  }

  ghost predicate AllGood(history: seq<Message>, messages: seq<Message>) {
    forall i :: 0 <= i < |messages| ==> GoodAt(history, messages, i)
  }

  /** The verdict on messages behind a history. */
  ghost predicate Judges(history: seq<Message>, messages: seq<Message>, v: Verdict) {
    if v == Accepted then AllGood(history, messages) else exists k: nat :: FirstBad(history, messages, k, v)
  }

  lemma Behind(history: seq<Message>, m: Message, rest: seq<Message>, i: nat)
    requires i <= |rest|
    ensures history + ([m] + rest)[..i + 1] == (history + [m]) + rest[..i] && (i < |rest| ==> ([m] + rest)[i + 1] == rest[i])
  {
    assert ([m] + rest)[..i + 1] == [m] + rest[..i];
  }

  lemma GoodLater(history: seq<Message>, m: Message, rest: seq<Message>, i: nat)
    requires i < |rest| && GoodAt(history + [m], rest, i)
    ensures GoodAt(history, [m] + rest, i + 1)
  {
    Behind(history, m, rest, i);
  }

  lemma GoodFirst(history: seq<Message>, m: Message, rest: seq<Message>)
    requires MessageGood(history, m)
    ensures GoodAt(history, [m] + rest, 0)
  {
    assert history + ([m] + rest)[..0] == history;
  }

  lemma BadLater(history: seq<Message>, m: Message, rest: seq<Message>, k: nat, v: Verdict)
    requires MessageGood(history, m) && FirstBad(history + [m], rest, k, v)
    ensures FirstBad(history, [m] + rest, k + 1, v)
  {
    Behind(history, m, rest, k);
    GoodFirst(history, m, rest);
    forall i | 1 <= i < k + 1 ensures GoodAt(history, [m] + rest, i) {
      GoodLater(history, m, rest, i - 1);
    }
  }

  lemma AllGoodLater(history: seq<Message>, m: Message, rest: seq<Message>)
    requires MessageGood(history, m) && AllGood(history + [m], rest)
    ensures AllGood(history, [m] + rest)
  {
    GoodFirst(history, m, rest);
    forall i | 1 <= i < |rest| + 1 ensures GoodAt(history, [m] + rest, i) {
      GoodLater(history, m, rest, i - 1);
    }
  }

  lemma JudgesLater(history: seq<Message>, m: Message, rest: seq<Message>, v: Verdict)
    requires MessageGood(history, m) && Judges(history + [m], rest, v)
    ensures Judges(history, [m] + rest, v)
  {
    if v == Accepted {
      AllGoodLater(history, m, rest);
    } else {
      var k: nat :| FirstBad(history + [m], rest, k, v);
      BadLater(history, m, rest, k, v);
    }
  }

  lemma JudgesFirst(history: seq<Message>, m: Message, rest: seq<Message>, v: Verdict)
    requires Breaks(history, m, v)
    ensures Judges(history, [m] + rest, v)
  {
    assert history + ([m] + rest)[..0] == history;
    assert FirstBad(history, [m] + rest, 0, v);
  }

  lemma {:induction false} ValidatedFrom(declared: set<string>, seen: set<string>, history: seq<Message>, messages: seq<Message>)
    requires Tracks(declared, seen, history)
    ensures Judges(history, messages, ValidateFrom(declared, seen, messages))
    decreases |messages|
  {
    if messages != [] {
      var m, rest := messages[0], messages[1..];
      var v := CheckMessage(declared, seen, m);
      MessageChecked(declared, seen, history, m);
      assert messages == [m] + rest;
      if v != Accepted {
        JudgesFirst(history, m, rest, v);
      } else {
        TracksMore(declared, seen, history, m);
        ValidatedFrom(DeclaredWith(declared, m), seen + SeenIds(ContentResultIds(m.content)), history + [m], rest);
        JudgesLater(history, m, rest, ValidateFrom(declared, seen, messages));
      }
    }
  }

  /** For every conversation: the validator accepts it exactly when every message is
      good behind those before it, and otherwise answers with a rule that the first
      message that is not breaks. */
  lemma ValidateMeans(messages: seq<Message>)
    ensures Validate(messages) == Accepted <==> AllGood([], messages)
    ensures Validate(messages) != Accepted ==> exists k: nat :: FirstBad([], messages, k, Validate(messages))
  {
    ValidatedFrom({}, {}, [], messages);
    if Validate(messages) != Accepted {
      var k: nat :| FirstBad([], messages, k, Validate(messages));
      BreaksIsBad([] + messages[..k], messages[k], Validate(messages));
      assert !GoodAt([], messages, k);
    }
  }

  lemma BreaksIsBad(history: seq<Message>, m: Message, v: Verdict)
    requires Breaks(history, m, v)
    ensures !MessageGood(history, m)
  {
  }
}
