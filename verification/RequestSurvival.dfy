/** Nothing visible that a user or an assistant said in an Anthropic request is
    lost on its way through conversion, merging and sanitizing. */
module RequestSurvival {
  import opened Text
  import opened JsonValues
  import opened Models
  import opened Conversation
  import opened ToolHistory
  import opened AnthropicRequest
  import opened RequestMeaning
  import opened Layout
  import opened HistoryKept

  // ---------- what a message of the request says ----------

  predicate IsAssistant(m: RequestMessage) {
    Lower(TrimSpace(m.role)) == "assistant"
  }

  /** What the items give, one after the other. */
  function FromEach<T>(give: Json -> seq<T>, items: seq<Json>): seq<T> {
    if items == [] then [] else give(items[0]) + FromEach(give, items[1..])
  }

  function TextFragments(env: Env, items: seq<Json>): seq<string> {
    FromEach((item: Json) => TextsOf(env, item), items)
  }

  function ThoughtBlocks(items: seq<Json>): seq<Thinking> {
    FromEach(ThoughtsOf, items)
  }

  /** The visible text of a content: a string, the text blocks of a list, or the
      text found in anything else. */
  function SaidText(env: Env, content: Json): string {
    match content
    case JString(s) => TrimSpace(s)
    case JArray(items) => TrimSpace(Concat(TextFragments(env, items)))
    case _ => TrimSpace(env.textOf(Strip(content)))
  }

  function SaidThoughts(content: Json): seq<Thinking> {
    if content.JArray? then ThoughtBlocks(content.items) else []
  }

  lemma {:induction false} TextsInTurn(say: (Json, nat) -> Said, give: Json -> seq<string>, items: seq<Json>, issued: nat)
    requires forall item, n :: say(item, n).texts == give(item)
    ensures InTurn(say, items, issued).texts == FromEach(give, items)
    decreases |items|
  {
    if items != [] {
      TextsInTurn(say, give, items[1..], issued + say(items[0], issued).taken);
    }
  }

  lemma {:induction false} ThoughtsInTurn(say: (Json, nat) -> Said, give: Json -> seq<Thinking>, items: seq<Json>, issued: nat)
    requires forall item, n :: say(item, n).thoughts == give(item)
    ensures InTurn(say, items, issued).thoughts == FromEach(give, items)
    decreases |items|
  {
    if items != [] {
      ThoughtsInTurn(say, give, items[1..], issued + say(items[0], issued).taken);
    }
  }

  lemma ListSays(env: Env, assistant: bool, items: seq<Json>, issued: nat)
    ensures SaidByAll(env, assistant, items, issued).texts == TextFragments(env, items)
    ensures SaidByAll(env, assistant, items, issued).thoughts == ThoughtBlocks(items)
  {
    TextsInTurn(Saying(env, assistant), (item: Json) => TextsOf(env, item), items, issued);
    ThoughtsInTurn(Saying(env, assistant), ThoughtsOf, items, issued);
  }

  lemma ConvertSays(env: Env, assistant: bool, content: Json, issued: nat)
    ensures var p := Convert(env, assistant, Strip(content), issued);
            p.text == SaidText(env, content) && p.thinking == SaidThoughts(content)
  {
    StrippedConverted(env, assistant, content, issued);
    if content.JArray? {
      ListConverted(env, assistant, content.items, issued);
      ListSays(env, assistant, content.items, issued);
    }
  }

  // ---------- texts inside texts ----------

  predicate At(s: string, t: string, i: nat) {
    i + |t| <= |s| && s[i..i + |t|] == t
  }

  ghost predicate Contains(s: string, t: string) {
    exists i: nat :: At(s, t, i)
  }

  lemma ContainsItself(s: string)
    ensures Contains(s, s)
  {
    assert At(s, s, 0);
  }

  lemma ContainedInPart(a: string, s: string, b: string, t: string)
    requires Contains(s, t)
    ensures Contains(a + (s + b), t)
  {
    var i: nat :| At(s, t, i);
    var all := a + (s + b);
    assert all[|a| + i..|a| + i + |t|] == s[i..i + |t|];
    assert At(all, t, |a| + i);
  }

  lemma {:induction false} ParagraphContained(texts: seq<string>, k: nat)
    requires k < |texts|
    ensures Contains(Paragraphs(texts), texts[k])
    decreases |texts|
  {
    var front, last := texts[..|texts| - 1], texts[|texts| - 1];
    ContainsItself(texts[k]);
    if |texts| > 1 {
      var joined := Paragraphs(front);
      if k < |front| {
        assert front[k] == texts[k];
        ParagraphContained(front, k);
        ContainedInPart("", joined, "\n\n" + last, texts[k]);
        assert "" + (joined + ("\n\n" + last)) == joined + ("\n\n" + last);
      } else {
        ContainedInPart(joined + "\n\n", last, "", last);
        Assoc(joined, "\n\n", last);
        assert last + "" == last;
      }
    }
  }

  lemma {:induction false} TextAmong(env: Env, run: seq<Message>, k: nat)
    requires k < |run| && TextOfContent(env, run[k].content) != ""
    ensures TextOfContent(env, run[k].content) in TextsIn(env, run)
    decreases |run|
  {
    if k < |run| - 1 {
      TextAmong(env, run[..|run| - 1], k);
    }
  }

  lemma {:induction false} ThoughtsAmong(run: seq<Message>, k: nat)
    requires k < |run| && run[k].thinkingBlocks != []
    ensures ThoughtsIn(run) != []
    decreases |run|
  {
    if k < |run| - 1 {
      ThoughtsAmong(run[..|run| - 1], k);
    }
  }

  // ---------- surviving the merge ----------

  /** Content that says a text: alone, with its thoughts in blocks, or among other texts. */
  ghost predicate Tells(env: Env, c: Content, said: Content) {
    c == said || Contains(TextOfContent(env, c), TextOfContent(env, said))
  }

  lemma {:induction false} InSomeRun<T>(runs: seq<seq<T>>, k: nat) returns (j: nat, i: nat)
    requires k < |Concat(runs)|
    ensures j < |runs| && i < |runs[j]| && runs[j][i] == Concat(runs)[k]
    decreases |runs|
  {
    if k < |runs[0]| {
      j, i := 0, k;
    } else {
      j, i := InSomeRun(runs[1..], k - |runs[0]|);
      j := j + 1;
    }
  }

  /** A message for the one at k: of its role, telling its text and keeping its thoughts. */
  ghost predicate StandsFor(env: Env, merged: Message, m: Message) {
    && merged.role == m.role && Tells(env, merged.content, m.content) && (m.thinkingBlocks != [] ==> merged.thinkingBlocks != [])
    && (merged.content == m.content || merged.content.Nothing? || merged.content.Plain?)
  }

  lemma JoinsStandsFor(env: Env, m: Message, run: seq<Message>, i: nat)
    requires Joins(env, m, run) && i < |run| && TextOfContent(env, run[i].content) != ""
    ensures StandsFor(env, m, run[i])
  {
    assert Alike(run[i], m);
    TextAmong(env, run, i);
    var texts := TextsIn(env, run);
    var k :| 0 <= k < |texts| && texts[k] == TextOfContent(env, run[i].content);
    ParagraphContained(texts, k);
    if run[i].thinkingBlocks != [] {
      ThoughtsAmong(run, i);
    }
  }

  lemma MergeStandsFor(env: Env, messages: seq<Message>, k: nat) returns (j: nat)
    requires k < |messages| && TextOfContent(env, messages[k].content) != ""
    ensures var merged := MergeConsecutive(env, messages); j < |merged| && StandsFor(env, merged[j], messages[k])
  {
    var runs := MergeJoins(env, messages);
    var i;
    j, i := InSomeRun(runs, k);
    JoinsStandsFor(env, MergeConsecutive(env, messages)[j], runs[j], i);
  }

  // ---------- surviving the sanitizing ----------

  predicate Lasting(m: Message) {
    m.role == User || m.role == System
    || (m.role == Assistant && (m.toolCalls == [] || !Blank(ContentText(m.content)) || m.thinkingBlocks != []))
  }

  /** What is left of a lasting message: at most its calls differ. */
  predicate SameSpeech(a: Message, b: Message) {
    a.role == b.role && a.content == b.content && a.thinkingBlocks == b.thinkingBlocks
  }

  lemma {:induction false} SanitizeLasts(supply: nat -> string, s: Seen, messages: seq<Message>, k: nat) returns (j: nat)
    requires k < |messages| && Lasting(messages[k])
    ensures var kept := SanitizeFrom(AnthropicCodec, supply, s, messages); j < |kept| && SameSpeech(kept[j], messages[k])
    decreases |messages|
  {
    var step := SanitizeMessage(AnthropicCodec, supply, s, messages[0]);
    if k == 0 {
      j := 0;
    } else {
      j := SanitizeLasts(supply, step.seen, messages[1..], k - 1);
      j := j + |step.kept|;
    }
  }

  // ---------- the whole conversion ----------

  /** The content a text becomes, with the thoughts that came with it. */
  function Spoken(text: string, thoughts: seq<Thinking>): Content {
    if thoughts == [] then Plain(text)
    else Blocks([TextBlock(text)] + seq(|thoughts|, i requires 0 <= i < |thoughts| => ThinkingBlock(TrimSpace(thoughts[i].thinking), TrimSpace(thoughts[i].signature))))
  }

  function SpeakerOf(m: RequestMessage): Role {
    if IsAssistant(m) then Assistant else User
  }

  lemma SaidTrimmed(env: Env, content: Json)
    ensures Trimmed(SaidText(env, content))
  {
    match content
    case JString(s) => TrimSpaceTrimmed(s);
    case JArray(items) => TrimSpaceTrimmed(Concat(TextFragments(env, items)));
    case JNull => TrimSpaceTrimmed(env.textOf(Strip(content)));
    case JBool(_) => TrimSpaceTrimmed(env.textOf(Strip(content)));
    case JNumber(_) => TrimSpaceTrimmed(env.textOf(Strip(content)));
    case JObject(_) => TrimSpaceTrimmed(env.textOf(Strip(content)));
  }

  /** One of the speaker's, with the text and the thoughts. */
  predicate SaysAs(env: Env, m: RequestMessage, x: Message) {
    && x.role == SpeakerOf(m) && x.thinkingBlocks == SaidThoughts(m.content)
    && x.content == Spoken(SaidText(env, m.content), SaidThoughts(m.content))
  }

  lemma MessageSays(env: Env, m: RequestMessage, issued: nat) returns (k: nat, x: Message)
    requires SaidText(env, m.content) != ""
    ensures k < |ToMessages(env, m, issued)| && ToMessages(env, m, issued)[k] == x && SaysAs(env, m, x)
  {
    ConvertSays(env, IsAssistant(m), m.content, issued);
    SaidTrimmed(env, m.content);
    TrimmedIsItself(SaidText(env, m.content));
    k := |ToMessages(env, m, issued)| - 1;
    x := ToMessages(env, m, issued)[k];
  }

  predicate Within<T(==)>(all: seq<T>, k: nat, part: seq<T>) {
    k + |part| <= |all| && all[k..k + |part|] == part
  }

  lemma Behind<T>(first: seq<T>, rest: seq<T>, part: seq<T>, k: nat)
    requires Within(rest, k, part)
    ensures Within(first + rest, |first| + k, part)
  {
    var all := first + rest;
    assert all[|first|..] == rest;
    assert all[|first| + k..|first| + k + |part|] == rest[k..k + |part|];
  }

  lemma AtWithin<T>(all: seq<T>, k: nat, part: seq<T>, j: nat)
    requires Within(all, k, part) && j < |part|
    ensures k + j < |all| && all[k + j] == part[j]
  {
    assert all[k + j] == all[k..k + |part|][j];
  }

  lemma InFront<T>(part: seq<T>, rest: seq<T>)
    ensures Within(part + rest, 0, part)
  {
  }

  /** What the items become, one after the other, with a number that is handed on. */
  function Sequence<T(!new), P>(each: (T, nat) -> seq<P>, after: (T, nat) -> nat, items: seq<T>, n: nat): seq<P>
    decreases |items|
  {
    if items == [] then [] else each(items[0], n) + Sequence(each, after, items[1..], after(items[0], n))
  }

  /** The number that is handed to the item at i. */
  function HandedTo<T(!new)>(after: (T, nat) -> nat, items: seq<T>, start: nat, i: nat): nat
    requires i <= |items|
  {
    if i == 0 then start else after(items[i - 1], HandedTo(after, items, start, i - 1))
  }

  lemma {:induction false} HandedOn<T(!new)>(after: (T, nat) -> nat, items: seq<T>, start: nat, i: nat)
    requires 1 <= i <= |items|
    ensures HandedTo(after, items, start, i) == HandedTo(after, items[1..], after(items[0], start), i - 1)
    decreases i
  {
    if i > 1 {
      HandedOn(after, items, start, i - 1);
    }
  }

  lemma {:induction false} SequenceAt<T(!new), P>(each: (T, nat) -> seq<P>, after: (T, nat) -> nat, items: seq<T>, start: nat, i: nat, n: nat)
      returns (k: nat)
    requires i < |items| && n == HandedTo(after, items, start, i)
    ensures Within(Sequence(each, after, items, start), k, each(items[i], n))
    decreases |items|
  {
    var first, next := each(items[0], start), after(items[0], start);
    var rest := Sequence(each, after, items[1..], next);
    if i == 0 {
      k := 0;
      InFront(first, rest);
    } else {
      HandedOn(after, items, start, i);
      k := SequenceAt(each, after, items[1..], next, i - 1, n);
      Behind(first, rest, each(items[i], n), k);
      k := |first| + k;
    }
  }

  function Becoming(env: Env): (RequestMessage, nat) -> seq<Message> {
    (m: RequestMessage, issued: nat) => ToMessages(env, m, issued)
  }

  function Taking(env: Env): (RequestMessage, nat) -> nat {
    (m: RequestMessage, issued: nat) => IssuedAfter(env, m, issued)
  }

  lemma {:induction false} AllInSequence(env: Env, messages: seq<RequestMessage>, issued: nat)
    ensures AllMessages(env, messages, issued) == Sequence(Becoming(env), Taking(env), messages, issued)
    decreases |messages|
  {
    if messages != [] {
      AllInSequence(env, messages[1..], IssuedAfter(env, messages[0], issued));
    }
  }

  function Summed<T(!new)>(f: T -> nat, items: seq<T>, i: nat): nat
    requires i <= |items|
  {
    if i == 0 then 0 else Summed(f, items, i - 1) + f(items[i - 1])
  }

  lemma {:induction false} HandedSum<T(!new)>(f: T -> nat, after: (T, nat) -> nat, items: seq<T>, start: nat, i: nat)
    requires i <= |items| && forall item, n: nat :: after(item, n) == n + f(item)
    ensures HandedTo(after, items, start, i) == start + Summed(f, items, i)
    decreases i
  {
    if i > 0 {
      HandedSum(f, after, items, start, i - 1);
    }
  }

  lemma {:induction false} SumGrows<T(!new)>(f: T -> nat, items: seq<T>, i: nat, k: nat)
    requires i < k <= |items|
    ensures Summed(f, items, i) + f(items[i]) <= Summed(f, items, k)
    decreases k
  {
    if i < k - 1 {
      SumGrows(f, items, i, k - 1);
    }
  }

  function IdsTakenBy(): RequestMessage -> nat {
    (m: RequestMessage) => IdsTaken(IsAssistant(m), m.content)
  }

  /** How many fresh ids the messages before the one at i take. */
  function IdsBefore(messages: seq<RequestMessage>, i: nat): nat
    requires i <= |messages|
  {
    Summed(IdsTakenBy(), messages, i)
  }

  lemma HandedIds(env: Env, messages: seq<RequestMessage>, issued: nat, i: nat)
    requires i <= |messages|
    ensures HandedTo(Taking(env), messages, issued, i) == issued + IdsBefore(messages, i)
  {
    forall m, n: nat ensures Taking(env)(m, n) == n + IdsTakenBy()(m) {
      IdsTakenMeans(env, IsAssistant(m), m.content, n);
    }
    HandedSum(IdsTakenBy(), Taking(env), messages, issued, i);
  }

  /** Where the messages of the one at i stand among all of them. */
  lemma AllAt(env: Env, messages: seq<RequestMessage>, issued: nat, i: nat, n: nat) returns (k: nat)
    requires i < |messages| && n == issued + IdsBefore(messages, i)
    ensures Within(AllMessages(env, messages, issued), k, ToMessages(env, messages[i], n))
  {
    AllInSequence(env, messages, issued);
    HandedIds(env, messages, issued, i);
    k := SequenceAt(Becoming(env), Taking(env), messages, issued, i, n);
  }

  lemma MessagesSay(env: Env, messages: seq<RequestMessage>, issued: nat, i: nat, m: RequestMessage) returns (k: nat, x: Message)
    requires i < |messages| && messages[i] == m && SaidText(env, m.content) != ""
    ensures k < |AllMessages(env, messages, issued)| && AllMessages(env, messages, issued)[k] == x && SaysAs(env, m, x)
  {
    var n := issued + IdsBefore(messages, i);
    var at := AllAt(env, messages, issued, i, n);
    var j;
    j, x := MessageSays(env, m, n);
    k := AtSum(AllMessages(env, messages, issued), at, ToMessages(env, m, n), j, x);
  }

  lemma AtSum<T>(all: seq<T>, at: nat, part: seq<T>, j: nat, x: T) returns (k: nat)
    requires Within(all, at, part) && j < |part| && part[j] == x
    ensures k < |all| && all[k] == x
  {
    AtWithin(all, at, part, j);
    k := at + j;
  }

  /** What stands for a message that says something lasts. */
  lemma StandInLasts(env: Env, merged: Message, m: Message)
    requires StandsFor(env, merged, m) && m.role in {User, Assistant} && TextOfContent(env, m.content) != ""
    requires m.content.Plain? || m.thinkingBlocks != []
    ensures Lasting(merged)
  {
    if merged.thinkingBlocks == [] && merged.role == Assistant {
      var said := TextOfContent(env, m.content);
      if merged.content != m.content {
        var i: nat :| At(TextOfContent(env, merged.content), said, i);
        assert TextOfContent(env, merged.content) != "";
      }
      TextIsTrimmed(env, merged.content);
      TrimSpaceTrimmed(merged.content.text);
    }
  }

  /** Encoded blocks are not blank. */
  ghost predicate Encodes(env: Env) {
    forall blocks :: !Blank(env.marshalBlocks(blocks))
  }

  lemma SpokenShows(env: Env, text: string, thoughts: seq<Thinking>)
    requires Encodes(env) && text != "" && Trimmed(text)
    ensures TextOfContent(env, Spoken(text, thoughts)) != ""
  {
    TrimmedIsItself(text);
  }

  /** The content that a message of the request becomes. */
  function Telling(env: Env, m: RequestMessage): Content {
    Spoken(SaidText(env, m.content), SaidThoughts(m.content))
  }

  /** From the gathered messages to the conversation. */
  lemma SaidLasts(env: Env, sanitizing: nat -> string, gathered: seq<Message>, k: nat, x: Message) returns (j: nat)
    requires k < |gathered| && gathered[k] == x && x.role in {User, Assistant} && TextOfContent(env, x.content) != ""
    requires x.content.Plain? || x.thinkingBlocks != []
    ensures var kept := Sanitize(AnthropicCodec, sanitizing, MergeConsecutive(env, gathered));
            j < |kept| && kept[j].role == x.role && Tells(env, kept[j].content, x.content)
  {
    var merged := MergeConsecutive(env, gathered);
    var n := MergeStandsFor(env, gathered, k);
    StandInLasts(env, merged[n], x);
    j := SanitizeLasts(sanitizing, NothingSeen, merged, n);
  }

  lemma SaysAsShows(env: Env, m: RequestMessage, x: Message)
    requires Encodes(env) && SaysAs(env, m, x) && SaidText(env, m.content) != ""
    ensures x.role in {User, Assistant} && TextOfContent(env, x.content) != "" && (x.content.Plain? || x.thinkingBlocks != [])
    ensures x.content == Telling(env, m)
  {
    SaidTrimmed(env, m.content);
    SpokenShows(env, SaidText(env, m.content), SaidThoughts(m.content));
  }

  lemma GatheredAt(env: Env, r: Request, k: nat, x: Message) returns (n: nat)
    requires k < |AllMessages(env, r.messages, 0)| && AllMessages(env, r.messages, 0)[k] == x
    ensures n < |Gathered(env, r)| && Gathered(env, r)[n] == x
  {
    n := k + (|Gathered(env, r)| - |AllMessages(env, r.messages, 0)|);
  }

  /** For every request and each of its messages that says something: the conversation
      has a message of the same speaker that tells it. */
  lemma TextSurvives(env: Env, sanitizing: nat -> string, r: Request, i: nat) returns (j: nat)
    requires Encodes(env) && !Blank(r.model) && i < |r.messages| && SaidText(env, r.messages[i].content) != ""
    ensures var out, m := MessagesToIR(env, sanitizing, r), r.messages[i];
            && out.Ready? && j < |out.messages| && out.messages[j].role == SpeakerOf(m)
            && Tells(env, out.messages[j].content, Telling(env, m))
  {
    var k, x := MessagesSay(env, r.messages, 0, i, r.messages[i]);
    SaysAsShows(env, r.messages[i], x);
    var n := GatheredAt(env, r, k, x);
    j := SaidLasts(env, sanitizing, Gathered(env, r), n, x);
  }

  /** Without thoughts of its own, the message is told as the text itself. */
  lemma PlainTextSurvives(env: Env, sanitizing: nat -> string, r: Request, i: nat) returns (j: nat)
    requires Encodes(env) && !Blank(r.model) && i < |r.messages|
    requires SaidText(env, r.messages[i].content) != "" && SaidThoughts(r.messages[i].content) == []
    ensures var out := MessagesToIR(env, sanitizing, r);
            && out.Ready? && j < |out.messages| && out.messages[j].role == SpeakerOf(r.messages[i])
            && Contains(TextOfContent(env, out.messages[j].content), SaidText(env, r.messages[i].content))
  {
    j := TextSurvives(env, sanitizing, r, i);
    var text := SaidText(env, r.messages[i].content);
    SaidTrimmed(env, r.messages[i].content);
    TrimmedIsItself(text);
    ContainsItself(text);
  }

  /** A request is refused for its model alone, and otherwise when nothing is left. */
  lemma OutcomeMeans(env: Env, sanitizing: nat -> string, r: Request)
    ensures var out := MessagesToIR(env, sanitizing, r);
            && (out.ModelRequired? <==> Blank(r.model)) && (out.Ready? ==> out.messages != [])
            && (out.MessagesEmpty? <==> !Blank(r.model) && Sanitize(AnthropicCodec, sanitizing, MergeConsecutive(env, Gathered(env, r))) == [])
  {
  }

  // ---------- the system prompt ----------

  lemma {:induction false} NoSystem(env: Env, messages: seq<RequestMessage>, issued: nat)
    ensures forall k :: 0 <= k < |AllMessages(env, messages, issued)| ==> AllMessages(env, messages, issued)[k].role != System
    decreases |messages|
  {
    if messages != [] {
      var m := messages[0];
      NoSystem(env, messages[1..], IssuedAfter(env, m, issued));
      ResultsNotSystem(env, IsAssistant(m), Strip(m.content), issued);
    }
  }

  lemma {:induction false} SaidNotSystem(say: (Json, nat) -> Said, items: seq<Json>, issued: nat)
    requires forall item, n, k :: 0 <= k < |say(item, n).results| ==> say(item, n).results[k].role == Tool
    ensures forall k :: 0 <= k < |InTurn(say, items, issued).results| ==> InTurn(say, items, issued).results[k].role == Tool
    decreases |items|
  {
    if items != [] {
      SaidNotSystem(say, items[1..], issued + say(items[0], issued).taken);
    }
  }

  lemma ResultsNotSystem(env: Env, assistant: bool, content: Json, issued: nat)
    ensures forall k :: 0 <= k < |Convert(env, assistant, content, issued).results| ==> Convert(env, assistant, content, issued).results[k].role != System
  {
    if content.JArray? {
      ListConverted(env, assistant, content.items, issued);
      SaidNotSystem(Saying(env, assistant), content.items, issued);
    }
  }

  /** A system prompt that is not blank comes first, alone and unchanged. */
  lemma SystemSurvives(env: Env, sanitizing: nat -> string, r: Request)
    requires !Blank(r.model) && !Blank(env.textOf(r.system))
    ensures var out := MessagesToIR(env, sanitizing, r);
            out.Ready? && out.messages[0] == Message(System, Plain(TrimSpace(env.textOf(r.system))), "", [], "", [])
  {
    var rest := AllMessages(env, r.messages, 0);
    var first := Message(System, Plain(TrimSpace(env.textOf(r.system))), "", [], "", []);
    NoSystem(env, r.messages, 0);
    assert Gathered(env, r) == [first] + rest;
    assert ([first] + rest)[1..] == rest;
  }

  // ---------- calls ----------

  predicate CallsId(calls: seq<ToolCall>, id: string) {
    exists c :: c in calls && c.id == id
  }

  /** A block is read with the number of fresh ids taken by the blocks before it. */
  lemma {:induction false} CallInTurn(say: (Json, nat) -> Said, takes: Json -> bool, items: seq<Json>, issued: nat, q: nat, nth: nat)
    requires q < |items| && forall item, n :: say(item, n).taken == One(takes(item))
    requires nth == issued + Count(takes, items, q)
    ensures forall c :: c in say(items[q], nth).calls ==> c in InTurn(say, items, issued).calls
    decreases |items|
  {
    if q > 0 {
      var next := issued + say(items[0], issued).taken;
      CountFront(takes, items, q);
      CallInTurn(say, takes, items[1..], next, q - 1, nth);
    }
  }

  lemma ListCalls(env: Env, items: seq<Json>, issued: nat, q: nat, nth: nat)
    requires q < |items| && nth == issued + Count(TakesIds(), items, q)
    ensures forall c :: c in CallsOf(env, items[q], nth) ==> c in SaidByAll(env, true, items, issued).calls
  {
    CallInTurn(Saying(env, true), TakesIds(), items, issued, q, nth);
  }

  lemma MessageCalls(env: Env, m: RequestMessage, issued: nat, q: nat, nth: nat) returns (x: Message)
    requires IsAssistant(m) && m.content.JArray? && q < |m.content.items| && IsCall(m.content.items[q])
    requires nth == issued + Count(TakesIds(), m.content.items, q)
    ensures ToMessages(env, m, issued) == [x] && x.role == Assistant
    ensures forall c :: c in CallsOf(env, m.content.items[q], nth) ==> c in x.toolCalls
  {
    StrippedConverted(env, true, m.content, issued);
    ListConverted(env, true, m.content.items, issued);
    ListCalls(env, m.content.items, issued, q, nth);
    var call := CallsOf(env, m.content.items[q], nth)[0];
    assert call in SaidByAll(env, true, m.content.items, issued).calls;
    x := ToMessages(env, m, issued)[0];
  }

  /** The number of the fresh id that a block would take. */
  function Number(messages: seq<RequestMessage>, i: nat, q: nat): nat
    requires i < |messages| && messages[i].content.JArray? && q <= |messages[i].content.items|
  {
    IdsBefore(messages, i) + Count(TakesIds(), messages[i].content.items, q)
  }

  /** The call of a block, with its own id or the next fresh one of the request. */
  lemma MessagesCall(env: Env, messages: seq<RequestMessage>, i: nat, m: RequestMessage, q: nat, nth: nat) returns (k: nat, x: Message)
    requires i < |messages| && messages[i] == m && IsAssistant(m) && m.content.JArray?
    requires q < |m.content.items| && IsCall(m.content.items[q]) && nth == Number(messages, i, q)
    ensures k < |AllMessages(env, messages, 0)| && AllMessages(env, messages, 0)[k] == x && x.role == Assistant
    ensures forall c :: c in CallsOf(env, m.content.items[q], nth) ==> c in x.toolCalls
  {
    var n := IdsBefore(messages, i);
    var at := AllAt(env, messages, 0, i, n);
    x := MessageCalls(env, m, n, q, nth);
    k := AtSum(AllMessages(env, messages, 0), at, ToMessages(env, m, n), 0, x);
  }

  lemma {:induction false} CallAmong(run: seq<Message>, k: nat, c: ToolCall)
    requires k < |run| && c in run[k].toolCalls
    ensures c in CallsIn(run)
    decreases |run|
  {
    if k < |run| - 1 {
      CallAmong(run[..|run| - 1], k, c);
    }
  }

  lemma {:induction false} FilterKeepsId(supply: nat -> string, calls: seq<ToolCall>, seen: set<string>, issued: nat, c: ToolCall)
    requires c in calls && !Blank(c.name) && !Blank(c.id) && TrimSpace(c.id) !in seen
    ensures CallsId(FilterCalls(supply, calls, seen, issued), TrimSpace(c.id))
    decreases |calls|
  {
    var one := TakeOne(supply, calls[0], seen, issued);
    var rest := FilterCalls(supply, calls[1..], seen + Ids(one), issued + Taken(calls[0]));
    if calls[0] == c {
      assert one[0].id == TrimSpace(c.id) && one[0] in one + rest;
    } else if TrimSpace(c.id) in Ids(one) {
      assert one[0] in one + rest;
    } else {
      FilterKeepsId(supply, calls[1..], seen + Ids(one), issued + Taken(calls[0]), c);
      var d :| d in rest && d.id == TrimSpace(c.id);
      assert d in one + rest;
    }
  }

  lemma {:induction false} SanitizeKeepsCall(supply: nat -> string, s: Seen, messages: seq<Message>, k: nat, c: ToolCall) returns (j: nat)
    requires k < |messages| && messages[k].role == Assistant && c in messages[k].toolCalls && !Blank(c.name) && !Blank(c.id)
    ensures var kept := SanitizeFrom(AnthropicCodec, supply, s, messages);
            && j < |kept| && kept[j].role == Assistant && CallsId(kept[j].toolCalls, TrimSpace(c.id))
            && (OnlyCall(supply, messages[k].toolCalls, c) ==> Arrives(kept[j].toolCalls, c))
    decreases |messages|
  {
    var step := SanitizeMessage(AnthropicCodec, supply, s, messages[0]);
    if k == 0 {
      FilterKeepsId(supply, messages[0].toolCalls, {}, s.issued, c);
      if OnlyCall(supply, messages[0].toolCalls, c) {
        OnlyKept(supply, messages[0].toolCalls, {}, s.issued, c);
      }
      j := 0;
    } else {
      j := SanitizeKeepsCall(supply, step.seen, messages[1..], k - 1, c);
      j := j + |step.kept|;
    }
  }

  /** All calls with this id are the same, and it is no fresh one. */
  ghost predicate OnlyIn(supply: nat -> string, messages: seq<Message>, c: ToolCall) {
    NeverFresh(supply, c) && forall k :: 0 <= k < |messages| ==> OnlyCall(supply, messages[k].toolCalls, c)
  }

  lemma {:induction false} OnlyInAll(supply: nat -> string, run: seq<Message>, c: ToolCall)
    requires OnlyIn(supply, run, c)
    ensures OnlyCall(supply, CallsIn(run), c)
    decreases |run|
  {
    if run != [] {
      OnlyInAll(supply, run[..|run| - 1], c);
    }
  }

  lemma {:induction false} OnlyInRun(supply: nat -> string, runs: seq<seq<Message>>, n: nat, c: ToolCall)
    requires n < |runs| && OnlyIn(supply, Concat(runs), c)
    ensures OnlyCall(supply, CallsIn(runs[n]), c)
    decreases n
  {
    var all, rest := Concat(runs), Concat(runs[1..]);
    assert all == runs[0] + rest;
    if n == 0 {
      assert forall k :: 0 <= k < |runs[0]| ==> runs[0][k] == all[k];
      OnlyInAll(supply, runs[0], c);
    } else {
      assert forall k :: 0 <= k < |rest| ==> rest[k] == all[|runs[0]| + k];
      OnlyInRun(supply, runs[1..], n - 1, c);
    }
  }

  lemma CallLasts(env: Env, sanitizing: nat -> string, gathered: seq<Message>, k: nat, x: Message, c: ToolCall) returns (j: nat)
    requires k < |gathered| && gathered[k] == x && x.role == Assistant && c in x.toolCalls && !Blank(c.name) && !Blank(c.id)
    ensures var kept := Sanitize(AnthropicCodec, sanitizing, MergeConsecutive(env, gathered));
            && j < |kept| && kept[j].role == Assistant && CallsId(kept[j].toolCalls, TrimSpace(c.id))
            && (OnlyIn(sanitizing, gathered, c) ==> Arrives(kept[j].toolCalls, c))
  {
    var merged := MergeConsecutive(env, gathered);
    var runs := MergeJoins(env, gathered);
    var n, at := InSomeRun(runs, k);
    assert Alike(runs[n][at], merged[n]);
    CallAmong(runs[n], at, c);
    if OnlyIn(sanitizing, gathered, c) {
      OnlyInRun(sanitizing, runs, n, c);
    }
    j := SanitizeKeepsCall(sanitizing, NothingSeen, merged, n, c);
  }

  /** For every named tool_use block of an assistant: the conversation has an assistant
      message that calls its id, its own or the next fresh one of the request, and does
      so with its name and arguments if no other call has that id. */
  lemma CallSurvives(env: Env, sanitizing: nat -> string, r: Request, i: nat, q: nat, c: ToolCall) returns (j: nat)
    requires !Blank(r.model) && i < |r.messages| && IsAssistant(r.messages[i]) && r.messages[i].content.JArray?
    requires q < |r.messages[i].content.items| && IsCall(r.messages[i].content.items[q])
    requires CallsOf(env, r.messages[i].content.items[q], Number(r.messages, i, q)) == [c]
    requires forall n: nat :: Trimmed("toolu_" + env.supply(n))
    ensures var out := MessagesToIR(env, sanitizing, r);
            && out.Ready? && j < |out.messages| && out.messages[j].role == Assistant && CallsId(out.messages[j].toolCalls, c.id)
            && (OnlyIn(sanitizing, Gathered(env, r), c) ==> Arrives(out.messages[j].toolCalls, c))
  {
    var nth := Number(r.messages, i, q);
    var k, x := MessagesCall(env, r.messages, i, r.messages[i], q, nth);
    var n := GatheredAt(env, r, k, x);
    CallIsClean(env, r.messages[i].content.items[q], nth, c);
    j := CallLasts(env, sanitizing, Gathered(env, r), n, x, c);
  }

  lemma CallIsClean(env: Env, item: Json, nth: nat, c: ToolCall)
    requires IsCall(item) && CallsOf(env, item, nth) == [c] && Trimmed("toolu_" + env.supply(nth))
    ensures TrimSpace(c.id) == c.id && !Blank(c.id) && !Blank(c.name)
  {
    TrimSpaceTrimmed(StringOf(item.fields, "name"));
    TrimSpaceTrimmed(StringOf(item.fields, "id"));
    TrimmedIsItself("toolu_" + env.supply(nth));
  }

  /** Two blocks without an id of their own never get the same number. */
  lemma NumbersDiffer(messages: seq<RequestMessage>, i: nat, q: nat, i': nat, q': nat)
    requires i < |messages| && IsAssistant(messages[i]) && messages[i].content.JArray? && q < |messages[i].content.items|
    requires i' < |messages| && IsAssistant(messages[i']) && messages[i'].content.JArray? && q' < |messages[i'].content.items|
    requires TakesId(messages[i].content.items[q]) && (i < i' || (i == i' && q < q'))
    ensures Number(messages, i, q) < Number(messages, i', q')
  {
    var items := messages[i].content.items;
    if i == i' {
      CountGrows(TakesIds(), items, q, q');
    } else {
      CountGrows(TakesIds(), items, q, |items|);
      SumGrows(IdsTakenBy(), messages, i, i');
    }
  }

  lemma {:induction false} CountGrows<T(!new)>(p: T -> bool, items: seq<T>, q: nat, k: nat)
    requires q < k <= |items| && p(items[q])
    ensures Count(p, items, q) < Count(p, items, k)
    decreases k
  {
    if q < k - 1 {
      CountGrows(p, items, q, k - 1);
    }
  }
}
