/** The conversation as the Kiro service sends it: turns of users and assistants,
    with the extracted text of each and how many images and tool results it holds. */
module KiroPayload {
  import opened Text

  datatype Role = User | Assistant | System | Developer | Tool | Other

  datatype Message = Message(role: Role, text: string, images: nat, results: nat)

  datatype Side = UserSide | AssistantSide

  datatype Turn = Turn(side: Side, text: string, images: nat, results: nat)

  // ---------- conversion ----------

  /** The turn for results and images of tool messages that are still waiting. */
  function Flushed(images: nat, results: nat): seq<Turn> {
    if images == 0 && results == 0 then [] else [Turn(UserSide, "", images, results)]
  }

  /** An assistant message stays one; every other role speaks for the user. */
  function TurnOf(m: Message): Turn {
    if m.role == Assistant then Turn(AssistantSide, m.text, m.images, 0) else Turn(UserSide, m.text, m.images, m.results)
  }

  function Converted(messages: seq<Message>, images: nat, results: nat): seq<Turn> {
    if messages == [] then Flushed(images, results)
    else
      var m := messages[0];
      match m.role
      case System => Converted(messages[1..], images, results)
      case Developer => Converted(messages[1..], images, results)
      case Tool => Converted(messages[1..], images + m.images, results + m.results)
      case _ => Flushed(images, results) + [TurnOf(m)] + Converted(messages[1..], 0, 0)
  }

  /** convertToUnified. */
  method ConvertToUnified(messages: seq<Message>) returns (out: seq<Turn>)
    ensures out == Converted(messages, 0, 0)
  {
    out := [];
    var images: nat, results: nat := 0, 0;
    var i := 0;
    while i < |messages|
      invariant 0 <= i <= |messages|
      invariant out + Converted(messages[i..], images, results) == Converted(messages, 0, 0)
    {
      var m := messages[i];
      ghost var rest := Converted(messages[i + 1..], 0, 0);
      assert messages[i..][1..] == messages[i + 1..];
      if m.role == Tool {
        images, results := images + m.images, results + m.results;
      } else if m.role != System && m.role != Developer {
        var turn := TurnOf(m);
        Placed(out, Flushed(images, results), turn, rest);
        out := out + Flushed(images, results) + [turn];
        images, results := 0, 0;
      }
      i := i + 1;
    }
    assert messages[i..] == [];
    out := out + Flushed(images, results);
  }

  lemma Placed(out: seq<Turn>, flushed: seq<Turn>, turn: Turn, rest: seq<Turn>)
    ensures (out + flushed + [turn]) + rest == out + (flushed + [turn] + rest)
  {
  }

  /** A message survives conversion unless it is a system or developer message or
      a tool message that brings neither a result nor an image. */
  predicate Survives(m: Message) {
    match m.role
    case System => false
    case Developer => false
    case Tool => m.images > 0 || m.results > 0
    case _ => true
  }

  lemma {:induction false} NothingSurvives(messages: seq<Message>, images: nat, results: nat)
    ensures Converted(messages, images, results) == []
            <==> images == 0 && results == 0 && forall i :: 0 <= i < |messages| ==> !Survives(messages[i])
    decreases |messages|
  {
    if messages != [] {
      var m, rest := messages[0], messages[1..];
      var tool := m.role == Tool;
      NothingSurvives(rest, if tool then images + m.images else images, if tool then results + m.results else results);
      assert forall i :: 0 <= i < |rest| ==> rest[i] == messages[i + 1];
      assert forall i :: 0 < i < |messages| ==> messages[i] == rest[i - 1];
    }
  }

  // ---------- merging ----------

  /** mergeContent, on text. */
  function MergeText(a: string, b: string): string {
    if a == "" then b else if b == "" then a else a + "\n\n" + b
  }

  lemma MergeTextAssoc(a: string, b: string, c: string)
    ensures MergeText(MergeText(a, b), c) == MergeText(a, MergeText(b, c))
  {
    if a != "" && b != "" && c != "" {
      assert (a + "\n\n" + b) + "\n\n" + c == a + "\n\n" + (b + "\n\n" + c);
    }
  }

  function Joined(a: Turn, b: Turn): Turn {
    a.(text := MergeText(a.text, b.text), images := a.images + b.images, results := a.results + b.results)
  }

  function Merged(cur: Turn, rest: seq<Turn>): seq<Turn>
    decreases |rest|
  {
    if rest == [] then [cur]
    else if cur.side == rest[0].side then Merged(Joined(cur, rest[0]), rest[1..])
    else [cur] + Merged(rest[0], rest[1..])
  }

  function MergedAll(turns: seq<Turn>): seq<Turn> {
    if turns == [] then [] else Merged(turns[0], turns[1..])
  }

  /** mergeAdjacent. */
  method MergeAdjacent(turns: seq<Turn>) returns (merged: seq<Turn>)
    ensures merged == MergedAll(turns)
  {
    if |turns| <= 1 {
      return turns;
    }
    merged := [];
    var cur := turns[0];
    var i := 1;
    while i < |turns|
      invariant 1 <= i <= |turns|
      invariant merged + Merged(cur, turns[i..]) == MergedAll(turns)
    {
      var next := turns[i];
      assert turns[i..][1..] == turns[i + 1..];
      if cur.side == next.side {
        cur := Joined(cur, next);
      } else {
        Assoc(merged, [cur], Merged(next, turns[i + 1..]));
        merged := merged + [cur];
        cur := next;
      }
      i := i + 1;
    }
    assert turns[i..] == [];
    merged := merged + [cur];
  }

  ghost predicate Alternates(turns: seq<Turn>) {
    forall i :: 0 <= i < |turns| - 1 ==> turns[i].side != turns[i + 1].side
  }

  lemma {:induction false} MergedAlternates(cur: Turn, rest: seq<Turn>)
    ensures Alternates(Merged(cur, rest)) && Merged(cur, rest) != [] && Merged(cur, rest)[0].side == cur.side
    decreases |rest|
  {
    if rest != [] {
      if cur.side == rest[0].side {
        MergedAlternates(Joined(cur, rest[0]), rest[1..]);
      } else {
        MergedAlternates(rest[0], rest[1..]);
        var tail := Merged(rest[0], rest[1..]);
        assert forall i :: 0 < i < |tail| ==> ([cur] + tail)[i] == tail[i - 1];
      }
    }
  }

  /** What is said, how many images and how many results a list holds in all. */
  datatype Matter = Matter(text: string, images: nat, results: nat)

  function Together(a: Matter, b: Matter): Matter {
    Matter(MergeText(a.text, b.text), a.images + b.images, a.results + b.results)
  }

  function MatterOf(t: Turn): Matter {
    Matter(t.text, t.images, t.results)
  }

  function AllMatter(turns: seq<Turn>): Matter {
    if turns == [] then Matter("", 0, 0) else Together(MatterOf(turns[0]), AllMatter(turns[1..]))
  }

  lemma TogetherAssoc(a: Matter, b: Matter, c: Matter)
    ensures Together(Together(a, b), c) == Together(a, Together(b, c))
  {
    MergeTextAssoc(a.text, b.text, c.text);
  }

  /** Merging loses nothing and keeps the order of what is said. */
  lemma {:induction false} MergedKeepsMatter(cur: Turn, rest: seq<Turn>)
    ensures AllMatter(Merged(cur, rest)) == Together(MatterOf(cur), AllMatter(rest))
    decreases |rest|
  {
    if rest != [] {
      if cur.side == rest[0].side {
        MergedKeepsMatter(Joined(cur, rest[0]), rest[1..]);
        TogetherAssoc(MatterOf(cur), MatterOf(rest[0]), AllMatter(rest[1..]));
      } else {
        MergedKeepsMatter(rest[0], rest[1..]);
        var tail := Merged(rest[0], rest[1..]);
        assert ([cur] + tail)[1..] == tail;
      }
    }
  }

  lemma MatterCons(t: Turn, rest: seq<Turn>)
    ensures AllMatter([t] + rest) == Together(MatterOf(t), AllMatter(rest))
  {
    assert ([t] + rest)[1..] == rest;
  }

  // ---------- the first turn, alternation and the split ----------

  /** ensureFirstUser. */
  function WithFirstUser(turns: seq<Turn>): seq<Turn> {
    if turns == [] || turns[0].side == UserSide then turns else [Turn(UserSide, "(empty)", 0, 0)] + turns
  }

  function Opposite(s: Side): Side {
    if s == UserSide then AssistantSide else UserSide
  }

  /** ensureAlternating. */
  method EnsureAlternating(turns: seq<Turn>) returns (out: seq<Turn>)
    ensures Alternates(out)
    ensures Alternates(turns) <==> out == turns
  {
    if |turns| < 2 {
      return turns;
    }
    out := [turns[0]];
    var i := 1;
    while i < |turns|
      invariant 1 <= i <= |turns| && |out| >= i && out[|out| - 1] == turns[i - 1]
      invariant Alternates(out)
      invariant Alternates(turns[..i]) ==> out == turns[..i]
      invariant !Alternates(turns[..i]) ==> |out| > i
    {
      assert Alternates(turns[..i + 1]) <==> Alternates(turns[..i]) && turns[i].side != turns[i - 1].side by {
        PrefixAlternates(turns, i);
      }
      if turns[i].side == out[|out| - 1].side {
        out := out + [Turn(Opposite(out[|out| - 1].side), ".", 0, 0)];
      }
      out := out + [turns[i]];
      i := i + 1;
    }
    assert turns[..i] == turns;
  }

  lemma PrefixAlternates(turns: seq<Turn>, i: nat)
    requires 1 <= i < |turns|
    ensures Alternates(turns[..i + 1]) <==> Alternates(turns[..i]) && turns[i].side != turns[i - 1].side
  {
    var longer, shorter := turns[..i + 1], turns[..i];
    assert forall k :: 0 <= k < i ==> longer[k] == shorter[k];
    if Alternates(longer) {
      assert longer[i - 1].side != longer[i].side;
      forall k | 0 <= k < |shorter| - 1 ensures shorter[k].side != shorter[k + 1].side {
        assert longer[k].side != longer[k + 1].side;
      }
    }
  }

  datatype Payload = Payload(history: seq<Turn>, current: Turn)

  /** The turns before the split. */
  function Prepared(messages: seq<Message>): seq<Turn> {
    WithFirstUser(MergedAll(Converted(messages, 0, 0)))
  }

  /** BuildPayload as far as turns go: the last user turn is the current message,
      what precedes it is history, what follows it is dropped. */
  method BuildPayload(messages: seq<Message>) returns (payload: Option<Payload>, ghost dropped: seq<Turn>)
    ensures payload.None? <==> forall i :: 0 <= i < |messages| ==> !Survives(messages[i])
    ensures payload.Some? ==>
              var Payload(history, current) := payload.value;
              && history + [current] + dropped == Prepared(messages)
              && Alternates(history + [current]) && (history + [current])[0].side == UserSide && current.side == UserSide
              && |dropped| <= 1 && forall t :: t in dropped ==> t.side == AssistantSide
  {
    var unified := ConvertToUnified(messages);
    NothingSurvives(messages, 0, 0);
    unified := MergeAdjacent(unified);
    unified := WithFirstUser(unified);
    PreparedAlternates(messages);
    unified := EnsureAlternating(unified);
    var last := |unified| - 1;
    while last >= 0 && unified[last].side != UserSide
      invariant last == |unified| - 1 || (0 <= last == |unified| - 2 && unified[last].side == UserSide && unified[last + 1].side == AssistantSide)
      decreases last
    {
      assert unified[0].side == UserSide && unified[last - 1].side != unified[last].side;
      last := last - 1;
    }
    dropped := [];
    if last == -1 {
      return None, [];
    }
    dropped := unified[last + 1..];
    assert unified == unified[..last] + [unified[last]] + dropped;
    assert (unified[..last] + [unified[last]])[0] == unified[0];
    payload := Some(Payload(unified[..last], unified[last]));
  }

  /** The prepared list begins with a user turn and strictly alternates. */
  lemma PreparedAlternates(messages: seq<Message>)
    ensures Alternates(Prepared(messages))
    ensures Prepared(messages) == [] <==> Converted(messages, 0, 0) == []
    ensures Prepared(messages) != [] ==> Prepared(messages)[0].side == UserSide
  {
    var turns := Converted(messages, 0, 0);
    if turns != [] {
      MergedAlternates(turns[0], turns[1..]);
      var merged := Merged(turns[0], turns[1..]);
      if merged[0].side != UserSide {
        assert forall i :: 0 < i < |merged| + 1 ==> Prepared(messages)[i] == merged[i - 1];
      }
    }
  }

  /** All that survives conversion is in the prepared list, in order, next to the
      placeholder for a missing first user turn. */
  lemma PreparedKeepsMatter(messages: seq<Message>)
    ensures var turns := Converted(messages, 0, 0);
            AllMatter(Prepared(messages))
            == if turns != [] && turns[0].side == AssistantSide then Together(Matter("(empty)", 0, 0), AllMatter(turns)) else AllMatter(turns)
  {
    var turns := Converted(messages, 0, 0);
    if turns != [] {
      MergedKeepsMatter(turns[0], turns[1..]);
      MergedAlternates(turns[0], turns[1..]);
      MatterCons(Turn(UserSide, "(empty)", 0, 0), MergedAll(turns));
    }
  }

  // ---------- who said what ----------

  const NoMatter := Matter("", 0, 0)

  /** What a message contributes to a side: an assistant's text and images to its own,
      a tool's images and results and whatever else is said to the user's; system and
      developer messages go elsewhere. */
  function MatterFor(m: Message, side: Side): Matter {
    if m.role == System || m.role == Developer then NoMatter
    else if m.role == Assistant then (if side == AssistantSide then Matter(m.text, m.images, 0) else NoMatter)
    else if side == AssistantSide then NoMatter
    else Matter(if m.role == Tool then "" else m.text, m.images, m.results)
  }

  /** A way of putting matter together that keeps the order. */
  type Joining = (Matter, Matter) -> Matter

  function MatterIn(join: Joining, messages: seq<Message>, side: Side): Matter {
    if messages == [] then NoMatter else join(MatterFor(messages[0], side), MatterIn(join, messages[1..], side))
  }

  function OnSide(t: Turn, side: Side): Matter {
    if t.side == side then MatterOf(t) else NoMatter
  }

  function MatterOn(join: Joining, turns: seq<Turn>, side: Side): Matter {
    if turns == [] then NoMatter else join(OnSide(turns[0], side), MatterOn(join, turns[1..], side))
  }

  ghost predicate Neutral(join: Joining) {
    forall a :: join(a, NoMatter) == a && join(NoMatter, a) == a
  }

  ghost predicate Associative(join: Joining) {
    forall a, b, c :: join(join(a, b), c) == join(a, join(b, c))
  }

  /** As mergeAdjacent joins turns. */
  ghost predicate JoinsTurns(join: Joining) {
    forall a: Turn, b: Turn :: MatterOf(Joined(a, b)) == join(MatterOf(a), MatterOf(b))
  }

  /** As images and results of tool messages add up. */
  ghost predicate AddsSilent(join: Joining) {
    forall i: nat, r: nat, j: nat, s: nat :: join(Matter("", i, r), Matter("", j, s)) == Matter("", i + j, r + s)
  }

  ghost predicate Lawful(join: Joining) {
    Neutral(join) && Associative(join) && JoinsTurns(join) && AddsSilent(join)
  }

  lemma TogetherAssociative()
    ensures Associative(Together)
  {
    forall a, b, c ensures Together(Together(a, b), c) == Together(a, Together(b, c)) {
      TogetherAssoc(a, b, c);
    }
  }

  lemma NothingMore(a: Matter)
    ensures Together(a, NoMatter) == a && Together(NoMatter, a) == a
  {
  }

  lemma TogetherNeutral()
    ensures Neutral(Together)
  {
    forall a ensures Together(a, NoMatter) == a && Together(NoMatter, a) == a {
      NothingMore(a);
    }
  }

  lemma SilentMatter(i: nat, r: nat, j: nat, s: nat)
    ensures Together(Matter("", i, r), Matter("", j, s)) == Matter("", i + j, r + s)
  {
  }

  lemma TogetherSilent()
    ensures AddsSilent(Together)
  {
    forall i: nat, r: nat, j: nat, s: nat ensures Together(Matter("", i, r), Matter("", j, s)) == Matter("", i + j, r + s) {
      SilentMatter(i, r, j, s);
    }
  }

  lemma TogetherJoins()
    ensures JoinsTurns(Together)
  {
  }

  lemma MatterOnCons(join: Joining, t: Turn, rest: seq<Turn>, side: Side)
    ensures MatterOn(join, [t] + rest, side) == join(OnSide(t, side), MatterOn(join, rest, side))
  {
    assert ([t] + rest)[1..] == rest;
  }

  /** What is waiting for a user turn. */
  function Waiting(images: nat, results: nat, side: Side): Matter {
    if side == UserSide then Matter("", images, results) else NoMatter
  }

  lemma FlushedOn(join: Joining, images: nat, results: nat, rest: seq<Turn>, side: Side)
    requires Lawful(join)
    ensures MatterOn(join, Flushed(images, results) + rest, side) == join(Waiting(images, results, side), MatterOn(join, rest, side))
  {
    if images == 0 && results == 0 {
      assert [] + rest == rest;
    } else {
      MatterOnCons(join, Turn(UserSide, "", images, results), rest, side);
    }
  }

  ghost predicate Keeps(join: Joining, messages: seq<Message>, images: nat, results: nat, side: Side) {
    MatterOn(join, Converted(messages, images, results), side) == join(Waiting(images, results, side), MatterIn(join, messages, side))
  }

  lemma KeepsNone(join: Joining, images: nat, results: nat, side: Side)
    requires Lawful(join)
    ensures Keeps(join, [], images, results, side)
  {
    assert Flushed(images, results) + [] == Flushed(images, results);
    FlushedOn(join, images, results, [], side);
  }

  lemma KeepsSkipped(join: Joining, messages: seq<Message>, images: nat, results: nat, side: Side)
    requires Neutral(join) && messages != [] && (messages[0].role == System || messages[0].role == Developer)
    requires Keeps(join, messages[1..], images, results, side)
    ensures Keeps(join, messages, images, results, side)
  {
    assert MatterIn(join, messages, side) == MatterIn(join, messages[1..], side);
  }

  lemma ConvertedTool(messages: seq<Message>, images: nat, results: nat, more: nat, others: nat)
    requires messages != [] && messages[0].role == Tool && more == images + messages[0].images && others == results + messages[0].results
    ensures Converted(messages, images, results) == Converted(messages[1..], more, others)
  {
  }

  lemma KeepsTool(join: Joining, messages: seq<Message>, images: nat, results: nat, more: nat, others: nat, side: Side)
    requires Neutral(join) && AddsSilent(join) && Associative(join) && messages != [] && messages[0].role == Tool
    requires more == images + messages[0].images && others == results + messages[0].results
    requires Keeps(join, messages[1..], more, others, side)
    ensures Keeps(join, messages, images, results, side)
  {
    var m, rest := messages[0], messages[1..];
    var now, given, later := Waiting(images, results, side), MatterFor(m, side), MatterIn(join, rest, side);
    WaitingMore(join, images, results, m, side);
    Regrouped(join, now, given, later);
    assert MatterIn(join, messages, side) == join(given, later);
    ConvertedTool(messages, images, results, more, others);
    assert MatterOn(join, Converted(rest, more, others), side) == join(Waiting(more, others, side), later);
  }

  lemma WaitingMore(join: Joining, images: nat, results: nat, m: Message, side: Side)
    requires Neutral(join) && AddsSilent(join) && m.role == Tool
    ensures Waiting(images + m.images, results + m.results, side) == join(Waiting(images, results, side), MatterFor(m, side))
  {
  }

  lemma Regrouped(join: Joining, a: Matter, b: Matter, c: Matter)
    requires Associative(join)
    ensures join(join(a, b), c) == join(a, join(b, c))
  {
  }

  lemma KeepsTurn(join: Joining, messages: seq<Message>, images: nat, results: nat, side: Side)
    requires Lawful(join) && messages != [] && messages[0].role !in {System, Developer, Tool} && Keeps(join, messages[1..], 0, 0, side)
    ensures Keeps(join, messages, images, results, side)
  {
    var turn, rest := TurnOf(messages[0]), Converted(messages[1..], 0, 0);
    Assoc(Flushed(images, results), [turn], rest);
    FlushedOn(join, images, results, [turn] + rest, side);
    MatterOnCons(join, turn, rest, side);
    assert OnSide(turn, side) == MatterFor(messages[0], side);
  }

  lemma {:induction false} ConvertedKeeps(join: Joining, messages: seq<Message>, images: nat, results: nat, side: Side)
    requires Lawful(join)
    ensures Keeps(join, messages, images, results, side)
    decreases |messages|
  {
    if messages == [] {
      KeepsNone(join, images, results, side);
    } else if messages[0].role == Tool {
      var more, others: nat := images + messages[0].images, results + messages[0].results;
      ConvertedKeeps(join, messages[1..], more, others, side);
      KeepsTool(join, messages, images, results, more, others, side);
    } else if messages[0].role == System || messages[0].role == Developer {
      ConvertedKeeps(join, messages[1..], images, results, side);
      KeepsSkipped(join, messages, images, results, side);
    } else {
      ConvertedKeeps(join, messages[1..], 0, 0, side);
      KeepsTurn(join, messages, images, results, side);
    }
  }

  lemma {:induction false} MergedKeepsSides(join: Joining, cur: Turn, rest: seq<Turn>, side: Side)
    requires Lawful(join)
    ensures MatterOn(join, Merged(cur, rest), side) == join(OnSide(cur, side), MatterOn(join, rest, side))
    decreases |rest|
  {
    if rest == [] {
      MatterOnCons(join, cur, [], side);
      assert [cur] + [] == [cur];
    } else if cur.side == rest[0].side {
      MergedKeepsSides(join, Joined(cur, rest[0]), rest[1..], side);
      assert OnSide(Joined(cur, rest[0]), side) == join(OnSide(cur, side), OnSide(rest[0], side));
    } else {
      MergedKeepsSides(join, rest[0], rest[1..], side);
      MatterOnCons(join, cur, Merged(rest[0], rest[1..]), side);
    }
  }

  /** The prepared turns of a side hold what the messages contribute to it, and the
      placeholder when an assistant turn would come first. */
  ghost predicate KeepsSide(join: Joining, messages: seq<Message>, side: Side) {
    MatterOn(join, Prepared(messages), side)
    == if side == UserSide && StartsWithAssistant(messages) then join(Matter("(empty)", 0, 0), MatterIn(join, messages, side))
       else MatterIn(join, messages, side)
  }

  lemma PreparedKeepsSides(join: Joining, messages: seq<Message>, side: Side)
    requires Lawful(join)
    ensures KeepsSide(join, messages, side)
  {
    var turns := Converted(messages, 0, 0);
    ConvertedKeeps(join, messages, 0, 0, side);
    FirstTurn(messages, 0, 0);
    if turns != [] {
      MergedKeepsSides(join, turns[0], turns[1..], side);
      MergedAlternates(turns[0], turns[1..]);
      MatterOnCons(join, Turn(UserSide, "(empty)", 0, 0), MergedAll(turns), side);
    }
  }

  /** For every conversation and each side, in order: texts with blank lines between
      them, images and results. */
  lemma SidesKept(messages: seq<Message>, side: Side)
    ensures KeepsSide(Together, messages, side)
  {
    TogetherNeutral();
    TogetherSilent();
    TogetherAssociative();
    TogetherJoins();
    PreparedKeepsSides(Together, messages, side);
  }

  /** The first message that survives is an assistant's. */
  predicate StartsWithAssistant(messages: seq<Message>) {
    messages != [] && if Survives(messages[0]) then messages[0].role == Assistant else StartsWithAssistant(messages[1..])
  }

  lemma {:induction false} FirstTurn(messages: seq<Message>, images: nat, results: nat)
    ensures var turns := Converted(messages, images, results);
            turns != [] && turns[0].side == AssistantSide <==> images == 0 && results == 0 && StartsWithAssistant(messages)
    decreases |messages|
  {
    if messages != [] {
      var m := messages[0];
      FirstTurn(messages[1..], if m.role == Tool then images + m.images else images, if m.role == Tool then results + m.results else results);
    }
  }
}
