/** The endpoint tester of the frontend: what it makes of the events of a
    stream, and what it shows. */
module EndpointTester {
  import opened Text
  import opened JsonValues
  import opened Sse

  // ---------- field access ----------

  /** String(value || '') for a field; `other` stands for String() of values
      that are neither text nor falsy. */
  function TextOf(other: Json -> string, fields: Fields, key: string): string {
    if key !in fields then ""
    else
      match fields[key]
      case JNull => ""
      case JBool(b) => if b then other(fields[key]) else ""
      case JNumber(n) => if n == 0.0 then "" else other(fields[key])
      case JString(s) => s
      case JArray(_) => other(fields[key])
      case JObject(_) => other(fields[key])
  }

  function ObjectOf(fields: Fields, key: string): Option<Fields> {
    if key in fields && fields[key].JObject? then Some(fields[key].fields) else None
  }

  // ---------- sanitizing ----------

  const OPENING := "<environment_details>"
  const CLOSING := "</environment_details>"

  /** Remove the blocks: from an opening tag to the next closing one. */
  function StripBlocks(s: string, opening: string, closing: string): string
    requires closing != ""
    decreases |s|
  {
    var i := FindFolded(s, opening, 0);
    if i == -1 then s
    else
      var j := FindFolded(s, closing, i + |opening|);
      if j == -1 then s else s[..i] + StripBlocks(s[j + |closing|..], opening, closing)
  }

  /** sanitizeVisibleResponseText. */
  function Sanitize(s: string): string {
    JsTrim(StripBlocks(s, OPENING, CLOSING))
  }

  // ---------- the OpenAI shapes ----------

  function Reasoning(fields: Fields): string {
    if "reasoning_content" in fields && fields["reasoning_content"].JString? then fields["reasoning_content"].s
    else if "reasoning" in fields && fields["reasoning"].JString? then fields["reasoning"].s
    else ""
  }

  function ContentParts(items: seq<Json>): string {
    if items == [] then ""
    else
      (if items[0].JObject? && "text" in items[0].fields && items[0].fields["text"].JString? && JsTrim(items[0].fields["text"].s) != ""
       then items[0].fields["text"].s else "") + ContentParts(items[1..])
  }

  function MessageContent(fields: Fields): string {
    if "content" !in fields then ""
    else
      match fields["content"]
      case JString(s) => Sanitize(s)
      case JArray(items) => Sanitize(ContentParts(items))
      case _ => ""
  }

  datatype Shown = Shown(thinking: string, message: string)

  function Plus(a: Shown, b: Shown): Shown {
    Shown(a.thinking + b.thinking, a.message + b.message)
  }

  function StringField(fields: Fields, key: string): string {
    if key in fields && fields[key].JString? then fields[key].s else ""
  }

  function Choice(c: Fields): Shown {
    var message := match ObjectOf(c, "message")
                   case None => Shown("", "")
                   case Some(m) => Shown(Reasoning(m), MessageContent(m));
    var delta := match ObjectOf(c, "delta")
                 case None => Shown("", "")
                 case Some(d) => Shown(Reasoning(d), StringField(d, "content"));
    Plus(Plus(message, delta), Shown(Reasoning(c), StringField(c, "text")))
  }

  function Choices(items: seq<Json>): Shown {
    if items == [] then Shown("", "")
    else Plus(if items[0].JObject? then Choice(items[0].fields) else Shown("", ""), Choices(items[1..]))
  }

  /** What is shown of a thinking text and a message, if anything is left. */
  function Summarize(raw: Shown): Option<Shown> {
    var clean := Shown(Sanitize(raw.thinking), Sanitize(raw.message));
    if clean == Shown("", "") then None else Some(clean)
  }

  /** extractStructuredResponseFromOpenAIJSON. */
  function FromOpenAI(fields: Fields): Option<Shown> {
    if "choices" in fields && fields["choices"].JArray? then Summarize(Choices(fields["choices"].items)) else None
  }

  // ---------- whole JSON answers ----------

  /** The contents of the blocks of one type, joined by blank lines. */
  function Blocks(other: Json -> string, items: seq<Json>, kind: string): seq<string> {
    if items == [] then []
    else
      var content := if items[0].JObject? && JsTrim(TextOf(other, items[0].fields, "type")) == kind
                     then Sanitize(TextOf(other, items[0].fields, kind)) else "";
      (if content == "" then [] else [content]) + Blocks(other, items[1..], kind)
  }

  function JoinBlocks(parts: seq<string>): string {
    if parts == [] then "" else if |parts| == 1 then parts[0] else parts[0] + "\n\n" + JoinBlocks(parts[1..])
  }

  /** extractStructuredResponseFromJSON. */
  function FromJSON(other: Json -> string, j: Json): Option<Shown>
    requires j.JObject?
    decreases j
  {
    var items := if "content" in j.fields && j.fields["content"].JArray? then j.fields["content"].items else [];
    var thinking, text := Blocks(other, items, "thinking"), Blocks(other, items, "text");
    if thinking != [] || text != [] then Summarize(Shown(JoinBlocks(thinking), JoinBlocks(text)))
    else if FromOpenAI(j.fields).Some? then FromOpenAI(j.fields)
    else if "response" in j.fields && j.fields["response"].JObject? then FromJSON(other, j.fields["response"])
    else None
  }

  // ---------- streams ----------

  /** The switch over the event name in extractStructuredResponseFromSSE. */
  function React(other: Json -> string, got: Shown, e: Named): Shown {
    if !e.payload.JObject? then got
    else
      var p := e.payload.fields;
      if e.name == "" then (match FromOpenAI(p) case None => got case Some(s) => Plus(got, s))
      else if e.name == "content_block_delta" then
        match ObjectOf(p, "delta")
        case None => got
        case Some(d) =>
          var kind := JsTrim(TextOf(other, d, "type"));
          if kind == "thinking_delta" then got.(thinking := got.thinking + TextOf(other, d, "thinking"))
          else if kind == "text_delta" then got.(message := got.message + TextOf(other, d, "text"))
          else got
      else if e.name == "response.output_text.delta" then
        Shown(got.thinking + Reasoning(p), got.message + TextOf(other, p, "delta"))
      else if e.name == "response.output_text.done" then
        Shown(got.thinking + Reasoning(p), if got.message == "" then TextOf(other, p, "text") else got.message)
      else if e.name == "response.completed" then
        match ObjectOf(p, "response")
        case None => got
        case Some(r) => Shown(if got.thinking == "" then Reasoning(r) else got.thinking,
                              if got.message == "" then TextOf(other, r, "output_text") else got.message)
      else if e.name == "message_start" then
        match ObjectOf(p, "message")
        case None => got
        case Some(m) =>
          match FromJSON(other, JObject(m))
          case None => got
          case Some(s) => Shown(if got.thinking == "" then s.thinking else got.thinking,
                                if got.message == "" then s.message else got.message)
      else got
  }

  function Reacting(other: Json -> string): (Shown, Named) -> Shown {
    (got: Shown, e: Named) => React(other, got, e)
  }

  function Fold(react: (Shown, Named) -> Shown, got: Shown, events: seq<Named>): Shown
    decreases |events|
  {
    if events == [] then got else Fold(react, react(got, events[0]), events[1..])
  }

  /** extractStructuredResponseFromSSE. */
  function Extract(codec: Codec, other: Json -> string, payload: string): Option<Shown> {
    Summarize(Fold(Reacting(other), Shown("", ""), Sse.ReadAll(codec, payload)))
  }

  lemma FoldCons(react: (Shown, Named) -> Shown, got: Shown, e: Named, events: seq<Named>)
    ensures Fold(react, got, [e] + events) == Fold(react, react(got, e), events)
  {
    assert ([e] + events)[1..] == events;
  }

  lemma {:induction false} FoldAppend(react: (Shown, Named) -> Shown, got: Shown, a: seq<Named>, b: seq<Named>)
    ensures Fold(react, got, a + b) == Fold(react, Fold(react, got, a), b)
    decreases |a|
  {
    if a == [] {
      assert a + b == b;
    } else {
      assert (a + b)[1..] == a[1..] + b;
      FoldAppend(react, react(got, a[0]), a[1..], b);
    }
  }

  /** The loop over the sections of the payload. */
  method FoldSections(codec: Codec, react: (Shown, Named) -> Shown, sections: seq<string>) returns (got: Shown)
    ensures got == Fold(react, Shown("", ""), ReadSections(codec, sections))
  {
    got := Shown("", "");
    var i := 0;
    assert sections[0..] == sections;
    while i < |sections|
      invariant 0 <= i <= |sections|
      invariant Fold(react, got, ReadSections(codec, sections[i..])) == Fold(react, Shown("", ""), ReadSections(codec, sections))
    {
      assert sections[i..][1..] == sections[i + 1..];
      var section := ReadSection(codec, sections[i]);
      if section.Some? {
        FoldCons(react, got, section.value, ReadSections(codec, sections[i + 1..]));
        got := react(got, section.value);
      }
      i := i + 1;
    }
  }

  method ExtractStructuredResponse(codec: Codec, other: Json -> string, payload: string) returns (r: Option<Shown>)
    ensures r == Extract(codec, other, payload)
  {
    var got := FoldSections(codec, Reacting(other), Split(SectionBreak, payload, 0));
    return Summarize(got);
  }

  // ---------- blank text is never shown ----------

  lemma {:induction false} JsTrimLeftSpaces(s: string)
    requires forall i :: 0 <= i < |s| ==> JsSpace(s[i])
    ensures JsTrimLeft(s) == ""
  {
    if s != "" {
      assert forall i :: 0 <= i < |s[1..]| ==> s[1..][i] == s[i + 1];
      JsTrimLeftSpaces(s[1..]);
    }
  }

  lemma BlankShowsNothing(s: string)
    requires Blank(s) && Ascii(s)
    ensures Sanitize(s) == ""
  {
    BlankMeansSpaces(s);
    AsciiSpaces(s);
    assert forall i :: 0 <= i < |s| ==> s[i] != '<' && JsSpace(s[i]);
    NoTagIn(s, OPENING, 0);
    JsTrimLeftSpaces(s);
  }

  // ---------- what sanitizing leaves ----------

  /** An environment block, its tags in whatever case, and the text after it. */
  datatype Block = Block(opening: string, inside: string, closing: string, after: string)

  predicate WellFormed(b: Block) {
    && Lower(b.opening) == OPENING && Lower(b.closing) == CLOSING
    && Lacks(b.inside, CLOSING) && Lacks(b.after, OPENING)
  }

  /** The tag stands nowhere in the text. */
  predicate Lacks(s: string, tag: string) {
    forall k :: 0 <= k < |s| ==> !StartsWithFolded(s, tag, k)
  }

  function Woven(front: string, blocks: seq<Block>): string
    decreases |blocks|
  {
    if blocks == [] then front
    else front + (blocks[0].opening + (blocks[0].inside + (blocks[0].closing + Woven(blocks[0].after, blocks[1..]))))
  }

  function Outside(front: string, blocks: seq<Block>): string
    decreases |blocks|
  {
    if blocks == [] then front else front + Outside(blocks[0].after, blocks[1..])
  }

  /** No tag begins in x and ends in y, when y begins with a bracket. */
  lemma TagNotAcross(x: string, y: string, tag: string, k: nat)
    requires k < |x| && forall i :: 0 < i < |tag| ==> tag[i] != '<'
    requires (y == "" || y[0] == '<') && !StartsWithFolded(x, tag, k)
    ensures !StartsWithFolded(x + y, tag, k)
  {
    var s := x + y;
    if k + |tag| <= |x| {
      var i :| 0 <= i < |tag| && LowerChar(x[k + i]) != tag[i];
      assert LowerChar(s[k + i]) != tag[i];
    } else if y != "" && k + |tag| <= |s| {
      var i := |x| - k;
      assert s[k + i] == '<' == LowerChar('<') && tag[i] != '<';
      assert LowerChar(s[k + i]) != tag[i];
    }
  }

  lemma TagHere(pre: string, tag: string, lower: string, rest: string)
    requires Lower(tag) == lower
    ensures StartsWithFolded(pre + (tag + rest), lower, |pre|)
  {
    var s := pre + (tag + rest);
    forall i | 0 <= i < |lower| ensures LowerChar(s[|pre| + i]) == lower[i] {
      assert s[|pre| + i] == tag[i] && Lower(tag)[i] == LowerChar(tag[i]);
    }
  }

  lemma {:induction false} FoundFrom(s: string, tag: string, at: nat, p: nat)
    requires at <= p && StartsWithFolded(s, tag, p) && forall k :: at <= k < p ==> !StartsWithFolded(s, tag, k)
    ensures FindFolded(s, tag, at) == p
    decreases p - at
  {
    if at < p {
      FoundFrom(s, tag, at + 1, p);
    }
  }

  lemma {:induction false} NotFoundFrom(s: string, tag: string, at: nat)
    requires tag != "" && forall k :: at <= k < |s| ==> !StartsWithFolded(s, tag, k)
    ensures FindFolded(s, tag, at) == -1
    decreases |s| - at
  {
    if at < |s| {
      NotFoundFrom(s, tag, at + 1);
    }
  }

  lemma LowerBracket(tag: string, lower: string)
    requires Lower(tag) == lower && lower != "" && lower[0] == '<'
    ensures |tag| == |lower| && tag[0] == '<'
  {
    assert Lower(tag)[0] == LowerChar(tag[0]);
  }

  /** A tag is found behind a text that has none, when the text in front is skipped. */
  lemma TagFound(pre: string, x: string, tag: string, lower: string, rest: string)
    requires Lower(tag) == lower && IsTag(lower)
    requires Lacks(x, lower)
    ensures FindFolded(pre + (x + (tag + rest)), lower, |pre|) == |pre| + |x|
  {
    var s := pre + (x + (tag + rest));
    LowerBracket(tag, lower);
    TagHere(pre + x, tag, lower, rest);
    Assoc(pre, x, tag + rest);
    assert |pre + x| == |pre| + |x|;
    forall k | |pre| <= k < |pre| + |x| ensures !StartsWithFolded(s, lower, k) {
      TagNotAcross(x, tag + rest, lower, k - |pre|);
      Shifted(pre, x + (tag + rest), lower, k - |pre|);
    }
    FoundFrom(s, lower, |pre|, |pre| + |x|);
  }

  lemma Shifted(pre: string, s: string, tag: string, k: nat)
    ensures StartsWithFolded(pre + s, tag, |pre| + k) <==> StartsWithFolded(s, tag, k)
  {
    if k + |tag| <= |s| {
      forall i | 0 <= i < |tag| ensures LowerChar((pre + s)[|pre| + k + i]) == tag[i] <==> LowerChar(s[k + i]) == tag[i] {
        assert (pre + s)[|pre| + k + i] == s[k + i];
      }
    }
  }

  predicate IsTag(tag: string) {
    tag != "" && tag[0] == '<' && forall i :: 0 < i < |tag| ==> tag[i] != '<'
  }

  lemma TheTags()
    ensures IsTag(OPENING) && IsTag(CLOSING)
  {
  }

  lemma OpeningFound(front: string, tag: string, lower: string, rest: string)
    requires Lower(tag) == lower && IsTag(lower) && Lacks(front, lower)
    ensures FindFolded(front + (tag + rest), lower, 0) == |front|
  {
    TagFound("", front, tag, lower, rest);
    assert "" + (front + (tag + rest)) == front + (tag + rest);
  }

  lemma ClosingFound(front: string, opening: string, inside: string, tag: string, lower: string, rest: string)
    requires Lower(tag) == lower && IsTag(lower) && Lacks(inside, lower)
    ensures FindFolded(front + (opening + (inside + (tag + rest))), lower, |front| + |opening|) == |front| + |opening| + |inside|
  {
    TagFound(front + opening, inside, tag, lower, rest);
    Assoc(front, opening, inside + (tag + rest));
    assert |front + opening| == |front| + |opening|;
  }

  lemma AroundBlock(front: string, opening: string, inside: string, closing: string, rest: string)
    ensures var s := front + (opening + (inside + (closing + rest)));
            s[..|front|] == front && s[|front| + |opening| + |inside| + |closing|..] == rest
  {
  }

  lemma StripStep(s: string, open: string, close: string, i: nat, j: nat, front: string, rest: string)
    requires close != "" && FindFolded(s, open, 0) == i && FindFolded(s, close, i + |open|) == j
    requires s[..i] == front && s[j + |close|..] == rest
    ensures StripBlocks(s, open, close) == front + StripBlocks(rest, open, close)
  {
  }

  lemma OneBlockStripped(front: string, b: Block, rest: string, open: string, close: string)
    requires IsTag(open) && IsTag(close) && Lower(b.opening) == open && Lower(b.closing) == close
    requires Lacks(front, open) && Lacks(b.inside, close)
    ensures StripBlocks(front + (b.opening + (b.inside + (b.closing + rest))), open, close) == front + StripBlocks(rest, open, close)
  {
    LowerBracket(b.opening, open);
    LowerBracket(b.closing, close);
    OpeningFound(front, b.opening, open, b.inside + (b.closing + rest));
    ClosingFound(front, b.opening, b.inside, b.closing, close, rest);
    AroundBlock(front, b.opening, b.inside, b.closing, rest);
    StripStep(front + (b.opening + (b.inside + (b.closing + rest))), open, close, |front|, |front| + |b.opening| + |b.inside|, front, rest);
  }

  lemma {:induction false} BlocksStripped(front: string, blocks: seq<Block>)
    requires Lacks(front, OPENING) && forall i :: 0 <= i < |blocks| ==> WellFormed(blocks[i])
    ensures StripBlocks(Woven(front, blocks), OPENING, CLOSING) == Outside(front, blocks)
    decreases |blocks|
  {
    if blocks == [] {
      NotFoundFrom(front, OPENING, 0);
    } else {
      TheTags();
      OneBlockStripped(front, blocks[0], Woven(blocks[0].after, blocks[1..]), OPENING, CLOSING);
      BlocksStripped(blocks[0].after, blocks[1..]);
    }
  }

  /** Sanitizing takes out the environment blocks, and trims what is left. */
  lemma SanitizedIs(front: string, blocks: seq<Block>)
    requires Lacks(front, OPENING) && forall i :: 0 <= i < |blocks| ==> WellFormed(blocks[i])
    ensures Sanitize(Woven(front, blocks)) == JsTrim(Outside(front, blocks))
  {
    BlocksStripped(front, blocks);
  }

  /** A block that is not closed stays. */
  lemma UnclosedStays(front: string, opening: string, rest: string)
    requires Lacks(front, OPENING) && Lower(opening) == OPENING && Lacks(rest, CLOSING)
    ensures Sanitize(front + (opening + rest)) == JsTrim(front + (opening + rest))
  {
    TheTags();
    LowerBracket(opening, OPENING);
    OpeningFound(front, opening, OPENING, rest);
    NotClosed(front + opening, rest, CLOSING);
    Assoc(front, opening, rest);
  }

  lemma NotClosed(pre: string, rest: string, close: string)
    requires close != "" && Lacks(rest, close)
    ensures FindFolded(pre + rest, close, |pre|) == -1
  {
    forall k | |pre| <= k < |pre + rest| ensures !StartsWithFolded(pre + rest, close, k) {
      Shifted(pre, rest, close, k - |pre|);
    }
    NotFoundFrom(pre + rest, close, |pre|);
  }

  // ---------- trimming ASCII text ----------

  lemma {:induction false} LeftAlike(s: string)
    requires Ascii(s)
    ensures JsTrimLeft(s) == TrimLeft(s) && Ascii(TrimLeft(s))
  {
    if s != "" && IsSpace(s[0]) {
      assert Ascii(s[1..]) && LeadSpace(s) == 1;
      LeftAlike(s[1..]);
    }
  }

  lemma {:induction false} RightAlike(s: string)
    requires Ascii(s)
    ensures JsTrimRight(s) == TrimRight(s) && Ascii(TrimRight(s))
    decreases |s|
  {
    if s != "" && IsSpace(s[|s| - 1]) {
      assert Ascii(s[..|s| - 1]) && TailSpace(s) == 1;
      RightAlike(s[..|s| - 1]);
    }
  }

  /** On ASCII text the trimming of the frontend is that of the backend. */
  lemma TrimmedAlike(s: string)
    requires Ascii(s)
    ensures JsTrim(s) == TrimSpace(s)
  {
    LeftAlike(s);
    RightAlike(TrimLeft(s));
  }

  lemma {:induction false} OutsideAscii(front: string, blocks: seq<Block>)
    requires Ascii(Woven(front, blocks))
    ensures Ascii(Outside(front, blocks))
    decreases |blocks|
  {
    if blocks != [] {
      var b, rest := blocks[0], Woven(blocks[0].after, blocks[1..]);
      AsciiParts(front, b.opening + (b.inside + (b.closing + rest)));
      AsciiParts(b.opening, b.inside + (b.closing + rest));
      AsciiParts(b.inside, b.closing + rest);
      AsciiParts(b.closing, rest);
      OutsideAscii(b.after, blocks[1..]);
    }
  }

  lemma AsciiParts(a: string, b: string)
    requires Ascii(a + b)
    ensures Ascii(a) && Ascii(b)
  {
    assert forall i :: 0 <= i < |a| ==> a[i] == (a + b)[i];
    assert forall i :: 0 <= i < |b| ==> b[i] == (a + b)[|a| + i];
  }

  /** A text is shown as what stands outside its environment blocks, trimmed. */
  ghost predicate ShownAs(raw: string, clean: string) {
    exists front, blocks ::
      && raw == Woven(front, blocks) && clean == TrimSpace(Outside(front, blocks))
      && Lacks(front, OPENING) && forall i :: 0 <= i < |blocks| ==> WellFormed(blocks[i])
  }

  lemma PlainShownAs(s: string)
    requires Lacks(s, OPENING)
    ensures ShownAs(s, TrimSpace(s))
  {
    assert s == Woven(s, []) == Outside(s, []);
  }

  lemma SanitizedAsShown(raw: string, clean: string)
    requires Ascii(raw) && ShownAs(raw, clean)
    ensures Sanitize(raw) == clean
  {
    var front, blocks :|
      && raw == Woven(front, blocks) && clean == TrimSpace(Outside(front, blocks))
      && Lacks(front, OPENING) && forall i :: 0 <= i < |blocks| ==> WellFormed(blocks[i]);
    SanitizedIs(front, blocks);
    OutsideAscii(front, blocks);
    TrimmedAlike(Outside(front, blocks));
  }
}
