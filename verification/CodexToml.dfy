/** Patching Codex's config.toml, and reading the patched file back. */
module CodexToml {
  import opened Text
  import opened TextLines

  const HEADER := "[model_providers.custom]"

  predicate StartsWith(s: string, prefix: string) {
    prefix <= s
  }

  predicate IsHeader(line: string) {
    TrimSpace(line) == HEADER
  }

  predicate IsBracket(line: string) {
    var t := TrimSpace(line);
    t != "" && t[0] == '[' && t[|t| - 1] == ']'
  }

  // ---------- sections ----------

  /** The first line from `i` on that is the header, or the number of lines. */
  function FindHeader(ls: seq<string>, i: nat): (k: nat)
    requires i <= |ls|
    ensures i <= k <= |ls| && (k < |ls| ==> IsHeader(ls[k])) && forall j :: i <= j < k ==> !IsHeader(ls[j])
    decreases |ls| - i
  {
    if i == |ls| || IsHeader(ls[i]) then i else FindHeader(ls, i + 1)
  }

  function FindBracket(ls: seq<string>, i: nat): (k: nat)
    requires i <= |ls|
    ensures i <= k <= |ls| && (k < |ls| ==> IsBracket(ls[k])) && forall j :: i <= j < k ==> !IsBracket(ls[j])
    decreases |ls| - i
  {
    if i == |ls| || IsBracket(ls[i]) then i else FindBracket(ls, i + 1)
  }

  /** The lines with the section's lines replaced, or with the section added
      behind an empty line. */
  function Replaced(ls: seq<string>, body: seq<string>): seq<string>
    requires ls != [] && body != []
  {
    var start := FindHeader(ls, 0);
    if start == |ls| then TrimLines(ls) + ([""] + body)
    else TrimLines(ls[..start] + body + ls[FindBracket(ls, start + 1)..])
  }

  /** The replacement made in a text that is not blank, given with its lines. */
  function ReplacedIn(text: string, ls: seq<string>, replacement: string): string {
    var start := FindHeader(ls, 0);
    if start == |ls| then TrimSpace(text) + "\n\n" + replacement
    else TrimSpace(Join(ls[..start] + Split(replacement) + ls[FindBracket(ls, start + 1)..]))
  }

  function ReplacedText(sections: string, body: seq<string>): string {
    var normalized, replacement := DropCr(sections), TrimSpace(Join(body));
    if Blank(normalized) then replacement else ReplacedIn(normalized, Split(normalized), replacement)
  }

  /** replaceTOMLSection, with the replacement as its lines. */
  method ReplaceSection(sections: string, body: seq<string>) returns (r: string)
    requires body != []
    ensures r == ReplacedText(sections, body)
  {
    var normalized := DropCr(sections);
    var replacement := TrimSpace(Join(body));
    if Blank(normalized) {
      return replacement;
    }
    var ls := Split(normalized);
    var start, end := -1, |ls|;
    var i := 0;
    while i < |ls|
      invariant 0 <= i <= |ls| && end == |ls|
      invariant start == -1 ==> FindHeader(ls, 0) == FindHeader(ls, i)
      invariant start != -1 ==> 0 <= start < i && FindHeader(ls, 0) == start && FindBracket(ls, start + 1) == FindBracket(ls, i)
    {
      if start == -1 {
        if IsHeader(ls[i]) {
          start := i;
        }
      } else if IsBracket(ls[i]) {
        end := i;
        break;
      }
      i := i + 1;
    }
    if start == -1 {
      return TrimSpace(normalized) + "\n\n" + replacement;
    }
    r := TrimSpace(Join(ls[..start] + Split(replacement) + ls[end..]));
  }

  // ---------- the same on lines ----------

  /** What the replacement's lines are like. */
  ghost predicate BodyOk(body: seq<string>) {
    && body != [] && AreLines(body) && body[0] == HEADER && TrimmedEnd(body)
    && forall i :: 0 <= i < |body| ==> !EndsInCr(body[i]) && (i > 0 ==> !IsBracket(body[i]))
  }

  predicate Bracketed(ls: seq<string>) {
    ls != [] && ls[0] != "" && ls[0][0] == '['
  }

  lemma BodyTrimmed(body: seq<string>)
    requires BodyOk(body)
    ensures TrimSpace(Join(body)) == Join(body) && Split(Join(body)) == body
  {
    TrimSpaceJoin(body);
    TrimmedEndStays(body);
    SplitJoin(body);
  }

  lemma AddedText(a: seq<string>, body: seq<string>)
    requires a != [] && body != []
    ensures Join(a + ([""] + body)) == Join(a) + "\n\n" + Join(body)
  {
    JoinAppend([""], body);
    JoinAppend(a, [""] + body);
    var x, y := Join(a), Join(body);
    assert x + "\n" + ("" + "\n" + y) == x + "\n\n" + y;
  }

  lemma DroppedBracketed(ls: seq<string>)
    requires Bracketed(ls) && AreLines(ls)
    ensures Bracketed(DropLines(ls)) && AreLines(DropLines(ls))
  {
    DropLinesAt(ls, 0);
    DropCrJoin(ls);
  }

  /** The lines of a text of sections after the replacement, but for trimming. */
  lemma ReplacedLines(ls: seq<string>, body: seq<string>)
    requires BodyOk(body) && Bracketed(ls) && Split(Join(body)) == body
    ensures Join(Replaced(ls, body)) == ReplacedIn(Join(ls), ls, Join(body))
  {
    var start := FindHeader(ls, 0);
    if start == |ls| {
      TrimSpaceJoin(ls);
      AddedText(TrimLines(ls), body);
    } else {
      var rest := ls[FindBracket(ls, start + 1)..];
      assert (ls[..start] + body + rest)[0] == if start > 0 then ls[0] else HEADER;
      TrimSpaceJoin(ls[..start] + body + rest);
    }
  }

  /** On a text of sections, the replacement is one on lines. */
  lemma ReplacedOnLines(ls: seq<string>, body: seq<string>)
    requires BodyOk(body) && Bracketed(ls) && AreLines(ls)
    ensures ReplacedText(Join(ls), body) == Join(Replaced(DropLines(ls), body))
  {
    var dropped := DropLines(ls);
    BodyTrimmed(body);
    DropCrJoin(ls);
    DroppedBracketed(ls);
    SplitJoin(dropped);
    TrimSpaceJoin(dropped);
    ReplacedLines(dropped, body);
  }

  // ---------- what a replaced text looks like ----------

  predicate NoHeader(ls: seq<string>) {
    forall i :: 0 <= i < |ls| ==> !IsHeader(ls[i])
  }

  lemma FindHeaderIs(pre: seq<string>, rest: seq<string>)
    requires NoHeader(pre) && rest != [] && IsHeader(rest[0])
    ensures FindHeader(pre + rest, 0) == |pre|
  {
    var k := FindHeader(pre + rest, 0);
    assert (pre + rest)[|pre|] == rest[0];
    assert forall i :: 0 <= i < |pre| ==> (pre + rest)[i] == pre[i];
  }

  lemma FindBracketIs(front: seq<string>, body: seq<string>, post: seq<string>)
    requires body != [] && (forall i :: 0 < i < |body| ==> !IsBracket(body[i])) && (post == [] || IsBracket(post[0]))
    ensures FindBracket(front + body + post, |front| + 1) == |front| + |body|
  {
    var all := front + body + post;
    var k := FindBracket(all, |front| + 1);
    if post != [] {
      assert all[|front| + |body|] == post[0];
    }
    assert forall i :: |front| < i < |front| + |body| ==> all[i] == body[i - |front|];
  }

  /** Trimming the end changes no line but the last, and that one not in substance. */
  lemma {:induction false} TrimLinesSubstance(ls: seq<string>, i: nat)
    requires ls != [] && i < |TrimLines(ls)|
    ensures i < |ls| && TrimSpace(TrimLines(ls)[i]) == TrimSpace(ls[i])
    decreases |ls|
  {
    var n := |ls| - 1;
    if n > 0 && Spaces(ls[n]) {
      TrimLinesSubstance(ls[..n], i);
    } else if i == n {
      TrimSpaceAfterRight(ls[n]);
    }
  }

  /** Lines around the section: none before is the header, what follows begins
      with a bracketed line, and the end is trimmed. */
  ghost predicate Shaped(pre: seq<string>, body: seq<string>, post: seq<string>) {
    NoHeader(pre) && (post == [] || (IsBracket(post[0]) && TrimmedEnd(post)))
  }

  lemma BracketVisible(l: string)
    requires IsBracket(l)
    ensures !Spaces(l)
  {
    BlankMeansSpaces(l);
  }

  /** A replaced text keeps the lines before the section and those after it, but
      for trimming at its very end. */
  lemma ReplacedShape(ls: seq<string>, body: seq<string>) returns (pre: seq<string>, post: seq<string>)
    requires BodyOk(body) && Bracketed(ls)
    ensures Replaced(ls, body) == pre + body + post && Shaped(pre, body, post)
    ensures Around(ls, pre, post)
  {
    var start := FindHeader(ls, 0);
    if start == |ls| {
      pre, post := TrimLines(ls) + [""], [];
      AddedShape(ls, body);
    } else {
      var rest := ls[FindBracket(ls, start + 1)..];
      pre := ls[..start];
      post := if rest == [] then [] else TrimLines(rest);
      WovenShape(pre, body, rest);
    }
  }

  /** Where the lines before and after the section come from. */
  ghost predicate Around(ls: seq<string>, pre: seq<string>, post: seq<string>)
    requires ls != []
  {
    var start := FindHeader(ls, 0);
    if start == |ls| then pre == TrimLines(ls) + [""] && post == []
    else
      var rest := ls[FindBracket(ls, start + 1)..];
      pre == ls[..start] && post == if rest == [] then [] else TrimLines(rest)
  }

  lemma AddedShape(ls: seq<string>, body: seq<string>)
    requires ls != [] && NoHeader(ls)
    ensures NoHeader(TrimLines(ls) + [""])
    ensures TrimLines(ls) + ([""] + body) == (TrimLines(ls) + [""]) + body + []
  {
    var pre := TrimLines(ls) + [""];
    forall i | 0 <= i < |pre| ensures !IsHeader(pre[i]) {
      if i < |TrimLines(ls)| {
        TrimLinesSubstance(ls, i);
      }
    }
  }

  lemma WovenShape(pre: seq<string>, body: seq<string>, rest: seq<string>)
    requires BodyOk(body) && (rest == [] || IsBracket(rest[0]))
    ensures var post := if rest == [] then [] else TrimLines(rest);
            TrimLines(pre + body + rest) == pre + body + post && (post == [] || (IsBracket(post[0]) && TrimmedEnd(post)))
  {
    if rest == [] {
      assert pre + body + rest == pre + body && pre + body + [] == pre + body;
      TrimLinesFront(pre, body);
      TrimmedEndStays(body);
    } else {
      BracketVisible(rest[0]);
      TrimLinesFront(pre + body, rest);
      TrimLinesTrimmed(rest);
      TrimLinesSubstance(rest, 0);
    }
  }

  /** Replacing in such a text again, with an empty line behind it, changes nothing. */
  lemma ReplacedAgain(pre: seq<string>, body: seq<string>, post: seq<string>)
    requires BodyOk(body) && Shaped(pre, body, post)
    ensures Replaced(pre + body + post + [""], body) == pre + body + post
  {
    if post == [] {
      assert pre + body + post + [""] == pre + (body + [""]) && pre + body + post == pre + body;
      EndsAgain(pre, body);
    } else {
      assert pre + body + post + [""] == pre + body + (post + [""]);
      FollowedAgain(pre, body, post);
    }
  }

  lemma EndsAgain(pre: seq<string>, body: seq<string>)
    requires BodyOk(body) && NoHeader(pre)
    ensures Replaced(pre + (body + [""]), body) == pre + body
  {
    var longer := body + [""];
    var all := pre + longer;
    FindHeaderIs(pre, longer);
    assert all == pre + longer + [];
    assert forall i :: 0 < i < |longer| ==> !IsBracket(longer[i]);
    FindBracketIs(pre, longer, []);
    assert all[..|pre|] == pre && all[|all|..] == [];
    WovenShape(pre, body, []);
    assert pre + body + [] == pre + body;
  }

  lemma FoundAgain(pre: seq<string>, body: seq<string>, tail: seq<string>)
    requires BodyOk(body) && NoHeader(pre) && tail != [] && IsBracket(tail[0])
    ensures Replaced(pre + body + tail, body) == TrimLines(pre + body + tail)
  {
    HeaderBetween(pre, body, tail);
    FindBracketIs(pre, body, tail);
    Parts(pre, body, tail);
    ReplacedAt(pre + body + tail, body, |pre|, |pre| + |body|);
  }

  lemma HeaderBetween(pre: seq<string>, body: seq<string>, tail: seq<string>)
    requires NoHeader(pre) && body != [] && IsHeader(body[0])
    ensures FindHeader(pre + body + tail, 0) == |pre|
  {
    assert pre + body + tail == pre + (body + tail);
    FindHeaderIs(pre, body + tail);
  }

  lemma ReplacedAt(ls: seq<string>, body: seq<string>, start: nat, end: nat)
    requires body != [] && start < |ls| && FindHeader(ls, 0) == start && FindBracket(ls, start + 1) == end
    ensures Replaced(ls, body) == TrimLines(ls[..start] + body + ls[end..])
  {
  }

  lemma Parts(pre: seq<string>, body: seq<string>, tail: seq<string>)
    ensures (pre + body + tail)[..|pre|] == pre && (pre + body + tail)[|pre| + |body|..] == tail
  {
  }

  lemma FollowedAgain(pre: seq<string>, body: seq<string>, post: seq<string>)
    requires BodyOk(body) && NoHeader(pre) && post != [] && IsBracket(post[0]) && TrimmedEnd(post)
    ensures Replaced(pre + body + (post + [""]), body) == pre + body + post
  {
    var tail := post + [""];
    assert tail[0] == post[0];
    FoundAgain(pre, body, tail);
    WovenShape(pre, body, tail);
    EmptyLastLine(post);
  }

  function DropAll(ls: seq<string>): (r: seq<string>)
    ensures |r| == |ls| && forall i :: 0 <= i < |ls| ==> r[i] == DropOne(ls[i])
  {
    seq(|ls|, i requires 0 <= i < |ls| => DropOne(ls[i]))
  }

  lemma DropBeforeEmpty(ls: seq<string>)
    ensures DropLines(ls + [""]) == DropAll(ls) + [""]
  {
    forall i | 0 <= i < |ls| + 1 ensures DropLines(ls + [""])[i] == (DropAll(ls) + [""])[i] {
      DropLinesAt(ls + [""], i);
    }
  }

  /** Dropping carriage returns does not hide or make headers. */
  lemma DroppedShape(pre: seq<string>, body: seq<string>, post: seq<string>)
    requires BodyOk(body) && Shaped(pre, body, post)
    ensures Shaped(DropAll(pre), body, DropAll(post)) && DropAll(pre + body + post) == DropAll(pre) + body + DropAll(post)
  {
    forall i | 0 <= i < |pre| ensures !IsHeader(DropAll(pre)[i]) {
      TrimSpaceAfterDrop(pre[i]);
    }
    if post != [] {
      DroppedEnd(post);
    }
    DropAllParts(pre, body, post);
  }

  lemma DroppedEnd(post: seq<string>)
    requires TrimmedEnd(post) && IsBracket(post[0])
    ensures TrimmedEnd(DropAll(post)) && IsBracket(DropAll(post)[0])
  {
    TrimSpaceAfterDrop(post[0]);
    TrimRightProps(post[|post| - 1]);
    assert !EndsInCr(post[|post| - 1]);
    assert DropAll(post)[|post| - 1] == post[|post| - 1];
  }

  lemma DropAllParts(pre: seq<string>, body: seq<string>, post: seq<string>)
    requires forall i :: 0 <= i < |body| ==> !EndsInCr(body[i])
    ensures DropAll(pre + body + post) == DropAll(pre) + body + DropAll(post)
  {
    var w, r := pre + body + post, DropAll(pre) + body + DropAll(post);
    forall i | 0 <= i < |w| ensures DropAll(w)[i] == r[i] {
      assert w[i] == if i < |pre| then pre[i] else if i < |pre| + |body| then body[i - |pre|] else post[i - |pre| - |body|];
    }
  }

  /** A second replacement only drops the carriage returns that are left at line
      ends; so it changes nothing exactly when none are left. */
  lemma ReplacedTwice(pre: seq<string>, body: seq<string>, post: seq<string>)
    requires BodyOk(body) && Shaped(pre, body, post)
    ensures var w := pre + body + post;
            Replaced(DropLines(w + [""]), body) == DropAll(w) &&
            (DropAll(w) == w <==> forall i :: 0 <= i < |w| ==> !EndsInCr(w[i]))
  {
    var w := pre + body + post;
    DropBeforeEmpty(w);
    DroppedShape(pre, body, post);
    ReplacedAgain(DropAll(pre), body, DropAll(post));
    assert forall i :: 0 <= i < |w| ==> (DropOne(w[i]) == w[i] <==> !EndsInCr(w[i]));
    if DropAll(w) == w {
      assert forall i :: 0 <= i < |w| ==> DropAll(w)[i] == w[i];
    }
  }

  // ---------- the root part and the whole file ----------

  /** escapeTOMLString. */
  function Escape(value: string): string {
    if value == "" then ""
    else (if value[0] == '\\' then "\\\\" else if value[0] == '"' then "\\\"" else [value[0]]) + Escape(value[1..])
  }

  function Assigned(key: string, value: string): string {
    key + " = \"" + Escape(value) + "\""
  }

  const PROVIDER := "model_provider = \"custom\""

  function Head(model: string): seq<string> {
    [PROVIDER] + if model != "" then [Assigned("model", model)] else []
  }

  const SETTINGS := ["name = \"custom\"", "wire_api = \"responses\"", "requires_openai_auth = true"]

  function Fields(baseUrl: string, model: string): seq<string> {
    SETTINGS + [Assigned("base_url", baseUrl)] + if model != "" then [Assigned("model", model)] else []
  }

  function Body(baseUrl: string, model: string): seq<string> {
    [HEADER] + Fields(baseUrl, model)
  }

  /** A root line that the patch keeps. */
  predicate Kept(line: string) {
    var t := TrimSpace(line);
    t != "" && !StartsWith(t, "model_provider") && !StartsWith(t, "model =") && !StartsWith(t, "openai_api_key")
    && !StartsWith(t, "openai_base_url")
  }

  function Filter(ls: seq<string>): seq<string> {
    if ls == [] then [] else Filter(ls[..|ls| - 1]) + if Kept(ls[|ls| - 1]) then [ls[|ls| - 1]] else []
  }

  /** The first line that begins with a bracket, or the number of lines. */
  function RootEnd(ls: seq<string>, i: nat): (k: nat)
    requires i <= |ls|
    ensures i <= k <= |ls| && (k < |ls| ==> ls[k] != "" && ls[k][0] == '[')
    ensures forall j :: i <= j < k ==> ls[j] == "" || ls[j][0] != '['
    decreases |ls| - i
  {
    if i == |ls| || (ls[i] != "" && ls[i][0] == '[') then i else RootEnd(ls, i + 1)
  }

  /** splitTOMLRootAndSections. */
  function SplitRoot(content: string): (string, string) {
    var ls := Split(content);
    var k := RootEnd(ls, 0);
    if k == |ls| then (content, "") else (Join(ls[..k] + [""]), Join(ls[k..]))
  }

  /** patchCodexTOML. */
  method PatchCodexToml(content: string, baseUrl: string, model: string) returns (r: string)
    ensures r == Patched(content, baseUrl, model)
  {
    var (root, sections) := SplitRoot(content);
    var ls := Split(root);
    var rootLines: seq<string> := [];
    var i := 0;
    while i < |ls|
      invariant 0 <= i <= |ls| && rootLines == Filter(ls[..i])
    {
      assert ls[..i + 1][..i] == ls[..i];
      if Kept(ls[i]) {
        rootLines := rootLines + [ls[i]];
      }
      i := i + 1;
    }
    assert ls[..i] == ls;
    var newSections := ReplaceSection(sections, Body(baseUrl, model));
    var first := TrimSpace(Join(Head(model) + rootLines));
    var trimmed := TrimSpace(newSections);
    r := (if trimmed != "" then first + "\n\n" + trimmed else first) + "\n";
  }

  function Patched(content: string, baseUrl: string, model: string): string {
    var (root, sections) := SplitRoot(content);
    var first := TrimSpace(Join(Head(model) + Filter(Split(root))));
    var trimmed := TrimSpace(ReplacedText(sections, Body(baseUrl, model)));
    (if trimmed != "" then first + "\n\n" + trimmed else first) + "\n"
  }

  lemma {:induction false} EscapeLine(value: string)
    requires IsLine(value)
    ensures IsLine(Escape(value))
    decreases |value|
  {
    if value != "" {
      EscapeLine(value[1..]);
    }
  }

  /** A line that begins and ends visibly and is not a section's. */
  predicate Plain(l: string) {
    && l != "" && IsLine(l) && l[0] != '[' && IsAscii(l[0]) && !IsSpace(l[0])
    && IsAscii(l[|l| - 1]) && !IsSpace(l[|l| - 1])
  }

  lemma PlainLine(l: string)
    requires Plain(l)
    ensures TrimSpace(l) == l && TrimRight(l) == l && !Spaces(l) && !EndsInCr(l) && !IsBracket(l)
  {
    SolidEnds(l);
    BlankMeansSpaces(l);
  }

  lemma AssignedLine(key: string, value: string)
    requires IsLine(key) && IsLine(value) && key != "" && IsAscii(key[0]) && !IsSpace(key[0]) && key[0] != '['
    ensures Plain(Assigned(key, value))
  {
    EscapeLine(value);
    var l := Assigned(key, value);
    assert l[|l| - 1] == '"' && l[0] == key[0];
  }

  lemma SettingsPlain()
    ensures forall i :: 0 <= i < |SETTINGS| ==> Plain(SETTINGS[i])
  {
  }

  lemma FieldsPlain(baseUrl: string, model: string)
    requires IsLine(baseUrl) && IsLine(model)
    ensures forall i :: 0 <= i < |Fields(baseUrl, model)| ==> Plain(Fields(baseUrl, model)[i])
  {
    SettingsPlain();
    AssignedLine("base_url", baseUrl);
    AssignedLine("model", model);
  }

  lemma BodyFrom(fields: seq<string>)
    requires fields != [] && forall i :: 0 <= i < |fields| ==> Plain(fields[i])
    ensures BodyOk([HEADER] + fields)
  {
    var body := [HEADER] + fields;
    forall i | 0 < i < |body| ensures IsLine(body[i]) && !EndsInCr(body[i]) && !IsBracket(body[i]) {
      PlainLine(fields[i - 1]);
    }
    PlainLine(fields[|fields| - 1]);
  }

  lemma BodyIsOk(baseUrl: string, model: string)
    requires IsLine(baseUrl) && IsLine(model)
    ensures BodyOk(Body(baseUrl, model))
  {
    FieldsPlain(baseUrl, model);
    BodyFrom(Fields(baseUrl, model));
  }

  // ---------- the whole file as lines ----------

  lemma {:induction false} FilterAppend(a: seq<string>, b: seq<string>)
    ensures Filter(a + b) == Filter(a) + Filter(b)
    decreases |b|
  {
    if b == [] {
      assert a + b == a;
    } else {
      FilterAppend(a, b[..|b| - 1]);
      assert (a + b)[..|a + b| - 1] == a + b[..|b| - 1];
    }
  }

  lemma {:induction false} FilterFrom(ls: seq<string>)
    ensures forall l :: l in Filter(ls) ==> Kept(l) && l in ls
    decreases |ls|
  {
    if ls != [] {
      FilterFrom(ls[..|ls| - 1]);
    }
  }

  lemma {:induction false} FilterAll(ls: seq<string>)
    requires forall l :: l in ls ==> Kept(l)
    ensures Filter(ls) == ls
    decreases |ls|
  {
    if ls != [] {
      var front, last := ls[..|ls| - 1], ls[|ls| - 1];
      assert ls == front + [last];
      FilterAll(front);
    }
  }

  lemma {:induction false} FilterNone(ls: seq<string>)
    requires forall l :: l in ls ==> !Kept(l)
    ensures Filter(ls) == []
    decreases |ls|
  {
    if ls != [] {
      FilterNone(ls[..|ls| - 1]);
    }
  }

  lemma FilterKept(ls: seq<string>)
    ensures forall i :: 0 <= i < |Filter(ls)| ==> Kept(Filter(ls)[i])
    ensures (forall i :: 0 <= i < |ls| ==> Kept(ls[i])) ==> Filter(ls) == ls
    ensures (forall i :: 0 <= i < |ls| ==> !Kept(ls[i])) ==> Filter(ls) == []
  {
    FilterFrom(ls);
    if forall i :: 0 <= i < |ls| ==> Kept(ls[i]) {
      FilterAll(ls);
    } else if forall i :: 0 <= i < |ls| ==> !Kept(ls[i]) {
      FilterNone(ls);
    }
  }

  lemma FilterEmpty(ls: seq<string>)
    ensures Filter(ls + [""]) == Filter(ls)
  {
    assert (ls + [""])[..|ls|] == ls;
    assert !Kept("");
  }

  /** The section lines of the patched file, without the empty line at the end. */
  function PatchedSections(ls: seq<string>, body: seq<string>): seq<string>
    requires body != []
  {
    var k := RootEnd(ls, 0);
    if k == |ls| then body else Replaced(DropLines(ls[k..]), body)
  }

  function PatchedRoot(ls: seq<string>, model: string): (r: seq<string>)
    ensures r != []
  {
    TrimLines(Head(model) + Filter(ls[..RootEnd(ls, 0)]))
  }

  lemma RootFilter(content: string)
    ensures var ls := Split(content); Filter(Split(SplitRoot(content).0)) == Filter(ls[..RootEnd(ls, 0)])
  {
    JoinSplit(content);
    var ls := Split(content);
    var k := RootEnd(ls, 0);
    if k < |ls| {
      SplitJoin(ls[..k] + [""]);
      FilterEmpty(ls[..k]);
    } else {
      assert ls[..k] == ls;
    }
  }

  lemma PatchedSectionsShape(ls: seq<string>, body: seq<string>) returns (pre: seq<string>, post: seq<string>)
    requires BodyOk(body) && AreLines(ls)
    ensures PatchedSections(ls, body) == pre + body + post && Shaped(pre, body, post)
    ensures AreLines(pre + body + post) && Bracketed(pre + body + post) && TrimmedEnd(pre + body + post)
    ensures var k := RootEnd(ls, 0); if k == |ls| then pre == [] && post == [] else Around(DropLines(ls[k..]), pre, post)
  {
    var k := RootEnd(ls, 0);
    if k == |ls| {
      pre, post := [], [];
      assert pre + body + post == body;
    } else {
      var sections := DropLines(ls[k..]);
      DroppedBracketed(ls[k..]);
      pre, post := ReplacedShape(sections, body);
      AroundLines(sections, pre, body, post);
    }
  }

  lemma AroundLines(ls: seq<string>, pre: seq<string>, body: seq<string>, post: seq<string>)
    requires BodyOk(body) && Bracketed(ls) && AreLines(ls) && Around(ls, pre, post) && Shaped(pre, body, post)
    ensures AreLines(pre + body + post) && Bracketed(pre + body + post) && TrimmedEnd(pre + body + post)
  {
    AroundPieces(ls, pre, post);
    LinesTogether(pre, body, post);
    FirstTogether(pre, body, post);
    EndTogether(pre, body, post);
  }

  lemma AroundPieces(ls: seq<string>, pre: seq<string>, post: seq<string>)
    requires Bracketed(ls) && AreLines(ls) && Around(ls, pre, post)
    ensures AreLines(pre) && AreLines(post) && (pre == [] || Bracketed(pre))
  {
    var start := FindHeader(ls, 0);
    if start == |ls| {
      TrimLinesTrimmed(ls);
      FirstKept(ls);
    } else if post != [] {
      TrimLinesTrimmed(ls[FindBracket(ls, start + 1)..]);
    }
  }

  lemma LinesTogether(pre: seq<string>, body: seq<string>, post: seq<string>)
    requires AreLines(pre) && AreLines(body) && AreLines(post)
    ensures AreLines(pre + body + post)
  {
  }

  lemma FirstTogether(pre: seq<string>, body: seq<string>, post: seq<string>)
    requires (pre == [] || Bracketed(pre)) && body != [] && body[0] == HEADER
    ensures Bracketed(pre + body + post)
  {
    assert (pre + body + post)[0] == if pre == [] then HEADER else pre[0];
  }

  lemma EndTogether(pre: seq<string>, body: seq<string>, post: seq<string>)
    requires BodyOk(body) && Shaped(pre, body, post)
    ensures TrimmedEnd(pre + body + post)
  {
    assert !IsSpace(HEADER[0]);
    if post == [] {
      assert (pre + body + post)[|pre + body| - 1] == body[|body| - 1];
    } else {
      BracketVisible(post[0]);
      assert (pre + body + post)[|pre + body + post| - 1] == post[|post| - 1];
    }
  }

  lemma {:induction false} FirstKept(ls: seq<string>)
    requires Bracketed(ls)
    ensures Bracketed(TrimLines(ls))
    decreases |ls|
  {
    var n := |ls| - 1;
    if n > 0 && Spaces(ls[n]) {
      FirstKept(ls[..n]);
    } else if n == 0 {
      NotAllTrimmedRight(ls[0]);
      TrimRightProps(ls[0]);
    }
  }

  lemma HeadOk(model: string)
    requires IsLine(model)
    ensures AreLines(Head(model)) && TrimmedEnd(Head(model)) && TrimLines(Head(model)) == Head(model)
    ensures forall i :: 0 <= i < |Head(model)| ==> Plain(Head(model)[i]) && !Kept(Head(model)[i])
  {
    assert Plain(PROVIDER);
    PlainLine(PROVIDER);
    assert StartsWith(PROVIDER, "model_provider");
    AssignedLine("model", model);
    PlainLine(Assigned("model", model));
    var l := Assigned("model", model);
    assert l[..7] == "model =";
    TrimmedEndStays(Head(model));
  }

  /** The root lines after trimming: the two new ones and the kept ones. */
  lemma RootShape(model: string, kept: seq<string>)
    requires IsLine(model) && (forall i :: 0 <= i < |kept| ==> Kept(kept[i]))
    ensures var r := TrimLines(Head(model) + kept);
            && r == Head(model) + (if kept == [] then [] else TrimLines(kept))
            && Filter(r) == (if kept == [] then [] else TrimLines(kept))
            && TrimLines(Head(model) + Filter(r)) == r
  {
    HeadOk(model);
    FilterKept(Head(model));
    if kept == [] {
      assert Head(model) + kept == Head(model);
      assert Head(model) + [] == Head(model);
    } else {
      KeptVisible(kept);
      TrimLinesFront(Head(model), kept);
      TrimLinesFront(Head(model), TrimLines(kept));
      TrimmedEndStays(TrimLines(kept));
      FilterAppend(Head(model), TrimLines(kept));
      FilterKept(TrimLines(kept));
    }
  }

  /** Trimming kept lines leaves kept lines. */
  lemma KeptVisible(kept: seq<string>)
    requires kept != [] && forall i :: 0 <= i < |kept| ==> Kept(kept[i])
    ensures !Spaces(kept[0]) && TrimmedEnd(TrimLines(kept)) && !Spaces(TrimLines(kept)[0])
    ensures forall i :: 0 <= i < |TrimLines(kept)| ==> Kept(TrimLines(kept)[i])
  {
    VisibleWhenKept(kept[0]);
    TrimLinesTrimmed(kept);
    forall i | 0 <= i < |TrimLines(kept)| ensures Kept(TrimLines(kept)[i]) {
      TrimLinesSubstance(kept, i);
    }
    VisibleWhenKept(TrimLines(kept)[0]);
  }

  lemma VisibleWhenKept(l: string)
    requires Kept(l)
    ensures !Spaces(l)
  {
    BlankMeansSpaces(l);
  }

  /** The lines of the patched file: root, an empty line, sections. */
  function PatchedLines(ls: seq<string>, baseUrl: string, model: string): seq<string> {
    PatchedRoot(ls, model) + ([""] + PatchedSections(ls, Body(baseUrl, model)))
  }

  lemma SectionsText(content: string, body: seq<string>)
    requires BodyOk(body)
    ensures var ls := Split(content);
            TrimSpace(ReplacedText(SplitRoot(content).1, body)) == Join(PatchedSections(ls, body)) != ""
  {
    JoinSplit(content);
    var ls := Split(content);
    var pre, post := PatchedSectionsShape(ls, body);
    var w := PatchedSections(ls, body);
    TrimSpaceJoin(w);
    TrimmedEndStays(w);
    if RootEnd(ls, 0) == |ls| {
      BodyTrimmed(body);
    } else {
      ReplacedOnLines(ls[RootEnd(ls, 0)..], body);
    }
  }

  lemma RootText(content: string, model: string)
    requires IsLine(model)
    ensures var ls := Split(content);
            TrimSpace(Join(Head(model) + Filter(Split(SplitRoot(content).0)))) == Join(PatchedRoot(ls, model))
  {
    RootFilter(content);
    HeadOk(model);
    TrimSpaceJoin(Head(model) + Filter(Split(content)[..RootEnd(Split(content), 0)]));
  }

  /** The patched file, line by line. */
  lemma PatchedOnLines(content: string, baseUrl: string, model: string)
    requires IsLine(baseUrl) && IsLine(model)
    ensures Patched(content, baseUrl, model) == Join(PatchedLines(Split(content), baseUrl, model) + [""])
  {
    BodyIsOk(baseUrl, model);
    var ls, body := Split(content), Body(baseUrl, model);
    SectionsText(content, body);
    RootText(content, model);
    AddedText(PatchedRoot(ls, model), PatchedSections(ls, body));
    JoinAppend(PatchedLines(ls, baseUrl, model), [""]);
    JoinSplit(content);
    var pre, post := PatchedSectionsShape(ls, body);
  }

  /** No line begins with a bracket. */
  predicate Unbracketed(ls: seq<string>) {
    forall i :: 0 <= i < |ls| ==> ls[i] == "" || ls[i][0] != '['
  }

  /** Where the root of a patched file ends. */
  lemma RootOfPatched(root: seq<string>, w: seq<string>)
    requires Bracketed(w) && Unbracketed(root)
    ensures var ls := root + ([""] + w) + [""];
            RootEnd(ls, 0) == |root| + 1 && ls[..|root| + 1] == root + [""] && ls[|root| + 1..] == w + [""]
  {
    var ls := root + ([""] + w) + [""];
    assert ls[|root| + 1] == w[0];
    assert forall i :: 0 <= i < |root| ==> ls[i] == root[i];
    assert ls[|root|] == "";
  }

  lemma {:induction false} FilterUnbracketed(ls: seq<string>)
    requires Unbracketed(ls) && AreLines(ls)
    ensures Unbracketed(Filter(ls)) && AreLines(Filter(ls))
    decreases |ls|
  {
    if ls != [] {
      FilterUnbracketed(ls[..|ls| - 1]);
    }
  }

  lemma Together(a: seq<string>, b: seq<string>)
    requires Unbracketed(a) && Unbracketed(b) && AreLines(a) && AreLines(b)
    ensures Unbracketed(a + b) && AreLines(a + b)
  {
  }

  lemma RootUnbracketed(ls: seq<string>, model: string)
    requires IsLine(model) && AreLines(ls)
    ensures Unbracketed(PatchedRoot(ls, model)) && AreLines(PatchedRoot(ls, model))
  {
    var all := Head(model) + Filter(ls[..RootEnd(ls, 0)]);
    HeadOk(model);
    assert Unbracketed(Head(model));
    FilterUnbracketed(ls[..RootEnd(ls, 0)]);
    Together(Head(model), Filter(ls[..RootEnd(ls, 0)]));
    StillUnbracketed(all);
    TrimLinesTrimmed(all);
  }

  lemma {:induction false} StillUnbracketed(ls: seq<string>)
    requires ls != [] && Unbracketed(ls)
    ensures Unbracketed(TrimLines(ls))
    decreases |ls|
  {
    var n := |ls| - 1;
    if n > 0 && Spaces(ls[n]) {
      StillUnbracketed(ls[..n]);
    } else {
      TrimRightProps(ls[n]);
    }
  }

  /** What the second patch makes of the lines of the first. */
  lemma SecondPatch(ls: seq<string>, baseUrl: string, model: string)
    requires IsLine(baseUrl) && IsLine(model) && AreLines(ls)
    ensures var p, w := PatchedLines(ls, baseUrl, model) + [""], PatchedSections(ls, Body(baseUrl, model));
            PatchedLines(p, baseUrl, model) == PatchedRoot(ls, model) + ([""] + DropAll(w))
  {
    BodyIsOk(baseUrl, model);
    var body := Body(baseUrl, model);
    var pre, post := PatchedSectionsShape(ls, body);
    var root, w := PatchedRoot(ls, model), PatchedSections(ls, body);
    RootUnbracketed(ls, model);
    RootOfPatched(root, w);
    ReplacedTwice(pre, body, post);
    RootAgain(ls, model);
  }

  lemma RootAgain(ls: seq<string>, model: string)
    requires IsLine(model)
    ensures TrimLines(Head(model) + Filter(PatchedRoot(ls, model) + [""])) == PatchedRoot(ls, model)
  {
    var kept := Filter(ls[..RootEnd(ls, 0)]);
    FilterKept(ls[..RootEnd(ls, 0)]);
    RootShape(model, kept);
    FilterEmpty(PatchedRoot(ls, model));
  }

  lemma JoinInjective(a: seq<string>, b: seq<string>)
    requires a != [] && b != [] && AreLines(a) && AreLines(b) && Join(a) == Join(b)
    ensures a == b
  {
    SplitJoin(a);
    SplitJoin(b);
  }

  lemma {:induction false} DropAllLines(ls: seq<string>)
    requires AreLines(ls)
    ensures AreLines(DropAll(ls))
  {
    forall i | 0 <= i < |ls| ensures IsLine(DropAll(ls)[i]) {
      assert DropOne(ls[i]) <= ls[i];
      assert forall j :: 0 <= j < |DropOne(ls[i])| ==> DropOne(ls[i])[j] == ls[i][j];
    }
  }

  /** The patched file, taken apart again. */
  lemma PatchedParts(content: string, baseUrl: string, model: string)
    requires IsLine(baseUrl) && IsLine(model)
    ensures var ls, patched := Split(content), Patched(content, baseUrl, model);
            var root, w := PatchedRoot(ls, model), PatchedSections(ls, Body(baseUrl, model));
            && Split(patched) == PatchedLines(ls, baseUrl, model) + [""]
            && SplitRoot(patched).0 == Join(root + [""] + [""]) && SplitRoot(patched).1 == Join(w + [""])
            && AreLines(root) && AreLines(w) && |root| >= 1
  {
    JoinSplit(content);
    var ls := Split(content);
    BodyIsOk(baseUrl, model);
    PatchedOnLines(content, baseUrl, model);
    RootUnbracketed(ls, model);
    var pre, post := PatchedSectionsShape(ls, Body(baseUrl, model));
    PartsOf(PatchedRoot(ls, model), PatchedSections(ls, Body(baseUrl, model)));
  }

  lemma PartsOf(root: seq<string>, w: seq<string>)
    requires AreLines(root) && AreLines(w) && Bracketed(w) && Unbracketed(root)
    ensures var lines := root + ([""] + w) + [""];
            Split(Join(lines)) == lines &&
            SplitRoot(Join(lines)).0 == Join(root + [""] + [""]) && SplitRoot(Join(lines)).1 == Join(w + [""])
  {
    RootOfPatched(root, w);
    SplitJoin(root + ([""] + w) + [""]);
  }

  lemma PatchTwiceLines(content: string, baseUrl: string, model: string)
    requires IsLine(baseUrl) && IsLine(model)
    ensures var patched, w := Patched(content, baseUrl, model), PatchedSections(Split(content), Body(baseUrl, model));
            AreLines(w) && (Patched(patched, baseUrl, model) == patched <==> DropAll(w) == w)
  {
    JoinSplit(content);
    var ls, patched := Split(content), Patched(content, baseUrl, model);
    PatchedParts(content, baseUrl, model);
    SecondPatch(ls, baseUrl, model);
    PatchedOnLines(content, baseUrl, model);
    PatchedOnLines(patched, baseUrl, model);
    DropAllLines(PatchedSections(ls, Body(baseUrl, model)));
    SameWhenDropped(PatchedRoot(ls, model), PatchedSections(ls, Body(baseUrl, model)));
  }

  /** The section lines of a file that a patch leaves in it, once carriage
      returns before line feeds are dropped. */
  function Surviving(ls: seq<string>): seq<string>
    requires ls != []
  {
    var start := FindHeader(ls, 0);
    if start == |ls| then TrimLines(ls)
    else
      var rest := ls[FindBracket(ls, start + 1)..];
      ls[..start] + if rest == [] then [] else TrimLines(rest)
  }

  predicate NoneEndsInCr(ls: seq<string>) {
    forall i :: 0 <= i < |ls| ==> !EndsInCr(ls[i])
  }

  /** Dropping them once drops them all: no line that stays ended in two. */
  predicate Settled(content: string) {
    var ls := Split(content);
    var k := RootEnd(ls, 0);
    k == |ls| || NoneEndsInCr(Surviving(DropLines(ls[k..])))
  }

  /** Patching a patched file again changes nothing if and only if the old file
      is settled. */
  lemma PatchTwice(content: string, baseUrl: string, model: string)
    requires IsLine(baseUrl) && IsLine(model)
    ensures var patched := Patched(content, baseUrl, model);
            Patched(patched, baseUrl, model) == patched <==> Settled(content)
  {
    var ls, body := Split(content), Body(baseUrl, model);
    var w := PatchedSections(ls, body);
    PatchTwiceLines(content, baseUrl, model);
    JoinSplit(content);
    BodyIsOk(baseUrl, model);
    var pre, post := PatchedSectionsShape(ls, body);
    ReplacedTwice(pre, body, post);
    NoneIn(pre, body, post);
    var k := RootEnd(ls, 0);
    if k < |ls| {
      SurvivingAround(DropLines(ls[k..]), pre, post);
    }
  }

  lemma NoneIn(pre: seq<string>, body: seq<string>, post: seq<string>)
    requires NoneEndsInCr(body)
    ensures NoneEndsInCr(pre + body + post) <==> NoneEndsInCr(pre) && NoneEndsInCr(post)
  {
    var w := pre + body + post;
    assert forall i :: 0 <= i < |pre| ==> w[i] == pre[i];
    assert forall i :: 0 <= i < |post| ==> w[|pre| + |body| + i] == post[i];
  }

  lemma SurvivingAround(ls: seq<string>, pre: seq<string>, post: seq<string>)
    requires ls != [] && Around(ls, pre, post)
    ensures NoneEndsInCr(Surviving(ls)) <==> NoneEndsInCr(pre) && NoneEndsInCr(post)
  {
    if FindHeader(ls, 0) == |ls| {
      NoneIn(TrimLines(ls), [""], []);
      assert TrimLines(ls) + [""] + [] == pre;
    } else {
      NoneIn(pre, [], post);
      assert pre + [] + post == pre + post;
    }
  }

  lemma SameWhenDropped(root: seq<string>, w: seq<string>)
    requires AreLines(root) && AreLines(w) && AreLines(DropAll(w))
    ensures Join(root + ([""] + DropAll(w)) + [""]) == Join(root + ([""] + w) + [""]) <==> DropAll(w) == w
  {
    var a, b := root + ([""] + DropAll(w)) + [""], root + ([""] + w) + [""];
    if Join(a) == Join(b) {
      JoinInjective(a, b);
      Between(root, w);
      Between(root, DropAll(w));
    }
  }

  lemma Between(root: seq<string>, w: seq<string>)
    ensures (root + ([""] + w) + [""])[|root| + 1..|root| + 1 + |w|] == w
  {
  }

  /** The patched section part: the lines before the section and those behind it
      are the old ones in their order, once carriage returns before line feeds
      are dropped and the end is trimmed; the section between them is the new one. */
  lemma PatchKeepsSections(content: string, baseUrl: string, model: string) returns (pre: seq<string>, post: seq<string>)
    requires IsLine(baseUrl) && IsLine(model)
    ensures SplitRoot(Patched(content, baseUrl, model)).1 == Join(pre + Body(baseUrl, model) + post + [""])
    ensures var ls := Split(content);
            var k := RootEnd(ls, 0);
            if k == |ls| then pre == [] && post == [] else Around(DropLines(ls[k..]), pre, post)
  {
    JoinSplit(content);
    BodyIsOk(baseUrl, model);
    PatchedParts(content, baseUrl, model);
    pre, post := PatchedSectionsShape(Split(content), Body(baseUrl, model));
  }

  /** The patched root part: the two new lines, then the kept old ones. */
  lemma PatchKeepsRoot(content: string, baseUrl: string, model: string)
    requires IsLine(baseUrl) && IsLine(model)
    ensures var ls := Split(content);
            var kept := Filter(ls[..RootEnd(ls, 0)]);
            SplitRoot(Patched(content, baseUrl, model)).0
            == Join(Head(model) + (if kept == [] then [] else TrimLines(kept)) + [""] + [""])
  {
    var ls := Split(content);
    PatchedParts(content, baseUrl, model);
    FilterKept(ls[..RootEnd(ls, 0)]);
    RootShape(model, Filter(ls[..RootEnd(ls, 0)]));
  }

  lemma TrimLeftShorter(s: string)
    ensures |TrimLeft(s)| <= |s|
  {
    TrimLeftProps(s);
  }

  lemma ShortIsNoHeader(l: string)
    requires |l| < |HEADER|
    ensures !IsHeader(l)
  {
    TrimLeftShorter(l);
    TrimRightProps(TrimLeft(l));
  }

  /** A carriage return that is left at a line end makes the second patch differ. */
  lemma LeftOverDiffers(content: string, baseUrl: string, model: string, i: nat)
    requires IsLine(baseUrl) && IsLine(model)
    requires var w := PatchedSections(Split(content), Body(baseUrl, model)); i < |w| && EndsInCr(w[i])
    ensures var patched := Patched(content, baseUrl, model); Patched(patched, baseUrl, model) != patched
  {
    var w := PatchedSections(Split(content), Body(baseUrl, model));
    PatchTwiceLines(content, baseUrl, model);
    assert DropAll(w)[i] != w[i];
  }

  /** Section lines that end in two carriage returns and a line feed are such. */
  lemma PatchTwiceMayDiffer(baseUrl: string, model: string)
    requires IsLine(baseUrl) && IsLine(model)
    ensures var patched := Patched("[a]\r\r\nb", baseUrl, model); Patched(patched, baseUrl, model) != patched
  {
    var content, lines, dropped := "[a]\r\r\nb", ["[a]\r\r", "b"], ["[a]\r", "b"];
    assert lines[1..] == ["b"];
    assert Join(lines) == content;
    SplitJoin(lines);
    assert lines[0..] == lines;
    DropLinesAt(lines, 0);
    DropLinesAt(lines, 1);
    assert lines[0][..4] == "[a]\r";
    assert DropLines(lines) == dropped;
    LeftOverLine(dropped, Body(baseUrl, model));
    LeftOverDiffers(content, baseUrl, model, 0);
  }

  lemma LeftOverLine(dropped: seq<string>, body: seq<string>)
    requires dropped == ["[a]\r", "b"] && body != []
    ensures Replaced(dropped, body) != [] && EndsInCr(Replaced(dropped, body)[0])
  {
    ShortIsNoHeader(dropped[0]);
    ShortIsNoHeader(dropped[1]);
    assert TrimLines(dropped) == [dropped[0]] + [TrimRight("b")];
  }

  // ---------- reading back ----------

  /** The white space of the regular expressions. */
  predicate IsWs(c: char) {
    var n := c as int;
    n == 9 || n == 10 || n == 12 || n == 13 || n == 32
  }

  function SkipWs(t: string): string {
    if t != "" && IsWs(t[0]) then SkipWs(t[1..]) else t
  }

  function UpToQuote(t: string): (v: string)
    ensures v <= t
  {
    if t == "" || t[0] == '"' then "" else [t[0]] + UpToQuote(t[1..])
  }

  /** White space up to the end of a line or of the text. */
  predicate EndsLine(t: string) {
    t == "" || t[0] == '\n' || (IsWs(t[0]) && EndsLine(t[1..]))
  }

  function QuotedValue(t: string): Option<string> {
    if t == "" || t[0] != '"' then None
    else
      var value := UpToQuote(t[1..]);
      var rest := t[1 + |value|..];
      if value == "" || rest == "" || !EndsLine(rest[1..]) then None else Some(value)
  }

  function AfterKey(t: string): Option<string> {
    var atEquals := SkipWs(t);
    if atEquals == "" || atEquals[0] != '=' then None else QuotedValue(SkipWs(atEquals[1..]))
  }

  /** The pattern of parseTOMLQuotedValue, at the beginning of a line. */
  function MatchHere(t: string, key: string): Option<string> {
    var atKey := SkipWs(t);
    if StartsWith(atKey, key) then AfterKey(atKey[|key|..]) else None
  }

  /** parseTOMLQuotedValue: the leftmost match, tried at every line. */
  function ParseLines(ls: seq<string>, key: string): string {
    if ls == [] then ""
    else
      var here := MatchHere(Join(ls), key);
      if here.Some? then here.value else ParseLines(ls[1..], key)
  }

  function ReadFrom(ls: seq<string>, i: nat, key: string): string
    requires i <= |ls|
    decreases |ls| - i
  {
    if i == |ls| || IsBracket(ls[i]) then ""
    else
      var value := ParseLines(Split(ls[i]), key);
      if value != "" then value else ReadFrom(ls, i + 1, key)
  }

  lemma ReadNext(ls: seq<string>, i: nat, key: string)
    requires i < |ls| && !IsBracket(ls[i])
    ensures var value := ParseLines(Split(ls[i]), key);
            ReadFrom(ls, i, key) == if value != "" then value else ReadFrom(ls, i + 1, key)
  {
  }

  lemma SectionNext(ls: seq<string>, i: nat, key: string)
    requires i < |ls|
    ensures SectionFrom(ls, i, key) == if IsHeader(ls[i]) then ReadFrom(ls, i + 1, key) else SectionFrom(ls, i + 1, key)
  {
  }

  /** parseTOMLSectionQuotedValue. */
  method ParseSection(sections: string, key: string) returns (value: string)
    ensures value == SectionValue(sections, key)
  {
    var ls := Split(DropCr(sections));
    ghost var goal := SectionValue(sections, key);
    var inSection := false;
    var i := 0;
    while i < |ls|
      invariant 0 <= i <= |ls|
      invariant goal == if inSection then ReadFrom(ls, i, key) else SectionFrom(ls, i, key)
    {
      var line := ls[i];
      ghost var here := i;
      i := i + 1;
      if !inSection {
        SectionNext(ls, here, key);
        inSection := IsHeader(line);
      } else if IsBracket(line) {
        break;
      } else {
        ReadNext(ls, here, key);
        value := ParseLines(Split(line), key);
        if value != "" {
          return;
        }
      }
    }
    value := "";
  }

  /** The value in the first section that begins at or behind line i. */
  function SectionFrom(ls: seq<string>, i: nat, key: string): string
    requires i <= |ls|
  {
    var k := FindHeader(ls, i);
    if k == |ls| then "" else ReadFrom(ls, k + 1, key)
  }

  function SectionValue(sections: string, key: string): string {
    SectionFrom(Split(DropCr(sections)), 0, key)
  }

  /** readCodexStatus, on the file's content: base URL and model. */
  function ReadStatus(content: string): (string, string) {
    var (root, sections) := SplitRoot(content);
    (SectionValue(sections, "base_url"), ParseLines(Split(root), "model"))
  }

  /** A value that needs no escapes. */
  predicate Unescaped(value: string) {
    value != "" && forall i :: 0 <= i < |value| ==> value[i] !in "\"\\\n"
  }

  lemma {:induction false} UnescapedStays(value: string)
    requires forall i :: 0 <= i < |value| ==> value[i] !in "\"\\\n"
    ensures Escape(value) == value && IsLine(value)
    decreases |value|
  {
    if value != "" {
      UnescapedStays(value[1..]);
      assert value == [value[0]] + value[1..];
    }
  }

  lemma {:induction false} UpToQuoteIs(value: string, rest: string)
    requires forall i :: 0 <= i < |value| ==> value[i] != '"'
    ensures UpToQuote(value + "\"" + rest) == value
    decreases |value|
  {
    var t := value + "\"" + rest;
    if value != "" {
      assert t[1..] == value[1..] + "\"" + rest;
      UpToQuoteIs(value[1..], rest);
    }
  }

  lemma QuotedIs(value: string, tail: string)
    requires Unescaped(value) && EndsLine(tail)
    ensures QuotedValue("\"" + value + "\"" + tail) == Some(value)
  {
    var t := "\"" + value + "\"" + tail;
    assert t[1..] == value + "\"" + tail;
    UpToQuoteIs(value, tail);
    assert t[1 + |value|..] == "\"" + tail;
    assert ("\"" + tail)[1..] == tail;
  }

  lemma AfterKeyIs(quoted: string)
    requires quoted != "" && quoted[0] == '"'
    ensures AfterKey(" = " + quoted) == QuotedValue(quoted)
  {
    var t := " = " + quoted;
    assert t[1..] == "= " + quoted;
    assert ("= " + quoted)[1..] == " " + quoted;
    assert (" " + quoted)[1..] == quoted;
    assert SkipWs(" " + quoted) == quoted;
    assert SkipWs(t) == "= " + quoted;
  }

  /** An assignment that was written is matched, whatever the next lines are. */
  lemma MatchAssigned(key: string, value: string, tail: string)
    requires Unescaped(value) && key != "" && !IsWs(key[0]) && EndsLine(tail)
    ensures MatchHere(Assigned(key, value) + tail, key) == Some(value)
  {
    UnescapedStays(value);
    var quoted := "\"" + value + "\"" + tail;
    var t := Assigned(key, value) + tail;
    assert t == key + (" = " + quoted);
    assert t[0] == key[0] && t[..|key|] == key && t[|key|..] == " = " + quoted;
    AfterKeyIs(quoted);
    QuotedIs(value, tail);
  }

  lemma ProviderMisses(rest: string)
    ensures MatchHere(PROVIDER + rest, "model") == None
  {
    var t := PROVIDER + rest;
    assert t[..5] == "model" && t[5] == '_';
    assert t[5..][0] == '_' && SkipWs(t[5..]) == t[5..];
  }

  lemma JoinCons(l: string, rest: seq<string>)
    requires rest != []
    ensures Join([l] + rest) == l + ("\n" + Join(rest))
  {
    assert ([l] + rest)[1..] == rest;
  }

  lemma SecondMatches(first: string, second: string, more: seq<string>, key: string, value: string)
    requires more != [] && value != ""
    requires forall t: string :: MatchHere(first + t, key) == None
    requires MatchHere(second + ("\n" + Join(more)), key) == Some(value)
    ensures ParseLines([first] + ([second] + more), key) == value
  {
    var rest := [second] + more;
    JoinCons(first, rest);
    JoinCons(second, more);
    assert MatchHere(first + ("\n" + Join(rest)), key) == None;
    assert ([first] + rest)[1..] == rest;
  }

  /** The model is read from the second root line. */
  lemma ReadsModel(model: string, more: seq<string>)
    requires Unescaped(model) && more != []
    ensures ParseLines(Head(model) + more, "model") == model
  {
    var second := Assigned("model", model);
    assert Head(model) + more == [PROVIDER] + ([second] + more);
    forall t: string ensures MatchHere(PROVIDER + t, "model") == None {
      ProviderMisses(t);
    }
    MatchAssigned("model", model, "\n" + Join(more));
    SecondMatches(PROVIDER, second, more, "model", model);
  }

  /** A line that is no bracket and begins differently gives no value. */
  lemma Misses(l: string, key: string)
    requires Plain(l) && key != "" && key[0] != l[0]
    ensures ParseLines(Split(l), key) == ""
  {
    SplitLine(l);
    assert SkipWs(l) == l;
    assert MatchHere(Join([l]), key) == None;
    assert [l][1..] == [];
  }

  lemma Hits(key: string, value: string)
    requires Unescaped(value) && IsLine(key) && key != "" && IsAscii(key[0]) && !IsSpace(key[0]) && key[0] != '['
    ensures ParseLines(Split(Assigned(key, value)), key) == value && !IsBracket(Assigned(key, value))
  {
    UnescapedStays(value);
    AssignedLine(key, value);
    var l := Assigned(key, value);
    PlainLine(l);
    MatchAssigned(key, value, "");
    assert l + "" == l;
    LineMatches(l, key, value);
  }

  lemma LineMatches(l: string, key: string, value: string)
    requires IsLine(l) && MatchHere(l, key) == Some(value)
    ensures ParseLines(Split(l), key) == value
  {
    SplitLine(l);
  }

  /** The lines from i to n begin with another letter than the key. */
  ghost predicate Others(ls: seq<string>, i: nat, n: nat, key: string) {
    i <= n <= |ls| && key != "" && forall j :: i <= j < n ==> Plain(ls[j]) && ls[j][0] != key[0]
  }

  /** They are passed by. */
  lemma {:induction false} Passes(ls: seq<string>, i: nat, n: nat, key: string)
    requires Others(ls, i, n, key)
    ensures ReadFrom(ls, i, key) == ReadFrom(ls, n, key)
    decreases n - i
  {
    if i < n {
      PassesOne(ls, i, key);
      Passes(ls, i + 1, n, key);
    }
  }

  lemma PassesOne(ls: seq<string>, i: nat, key: string)
    requires i < |ls| && key != "" && Plain(ls[i]) && ls[i][0] != key[0]
    ensures ReadFrom(ls, i, key) == ReadFrom(ls, i + 1, key)
  {
    PlainLine(ls[i]);
    Misses(ls[i], key);
    ReadNext(ls, i, key);
  }

  /** A key that a section can be asked for. */
  predicate IsKey(key: string) {
    IsLine(key) && key != "" && IsAscii(key[0]) && !IsSpace(key[0]) && key[0] != '['
  }

  /** The body of the section stands in the lines from n on. */
  ghost predicate Stands(ls: seq<string>, n: nat, body: seq<string>) {
    n + |body| <= |ls| && FindHeader(ls, 0) == n && forall j :: 0 <= j < |body| ==> ls[n + j] == body[j]
  }

  lemma Standing(pre: seq<string>, body: seq<string>, tail: seq<string>)
    requires NoHeader(pre) && body != [] && body[0] == HEADER
    ensures Stands(pre + body + tail, |pre|, body)
  {
    HeaderIsHeader();
    HeaderBetween(pre, body, tail);
  }

  lemma PassesInside(ls: seq<string>, n: nat, body: seq<string>, k: nat, key: string)
    requires Stands(ls, n, body) && 1 <= k && Others(body, 1, k, key)
    ensures ReadFrom(ls, n + 1, key) == ReadFrom(ls, n + k, key)
  {
    forall j | n + 1 <= j < n + k ensures Plain(ls[j]) && ls[j][0] != key[0] {
      assert ls[n + (j - n)] == body[j - n];
    }
    Passes(ls, n + 1, n + k, key);
  }

  /** So the section's value is that of its first field with the key, */
  lemma ReadsInside(ls: seq<string>, n: nat, body: seq<string>, k: nat, key: string, value: string)
    requires Stands(ls, n, body) && Unescaped(value) && IsKey(key)
    requires 1 <= k < |body| && Others(body, 1, k, key) && body[k] == Assigned(key, value)
    ensures SectionFrom(ls, 0, key) == value
  {
    PassesInside(ls, n, body, k, key);
    assert ls[n + k] == body[k];
    ReadsHere(ls, n + k, key, value);
  }

  lemma ReadsHere(ls: seq<string>, i: nat, key: string, value: string)
    requires i < |ls| && ls[i] == Assigned(key, value) && Unescaped(value) && IsKey(key)
    ensures ReadFrom(ls, i, key) == value
  {
    Hits(key, value);
    ReadNext(ls, i, key);
  }

  /** or nothing if no field has it. */
  lemma ReadsNothing(ls: seq<string>, n: nat, body: seq<string>, key: string)
    requires ReadIn(ls, n, body) && body != [] && Others(body, 1, |body|, key)
    ensures SectionFrom(ls, 0, key) == ""
  {
    PassesInside(ls, n, body, |body|, key);
    if !IsBracket(ls[n + |body|]) {
      ReadNext(ls, n + |body|, key);
      EmptyGivesNothing(key);
    }
  }

  /** The section is there, and a bracket or the end behind it. */
  ghost predicate ReadIn(ls: seq<string>, n: nat, body: seq<string>) {
    && Stands(ls, n, body) && n + |body| < |ls|
    && (IsBracket(ls[n + |body|]) || (ls[n + |body|] == "" && n + |body| + 1 == |ls|))
  }

  /** The lines that the section is read from. */
  lemma StandsBetween(pre: seq<string>, body: seq<string>, post: seq<string>, key: string) returns (ls: seq<string>, n: nat)
    requires BodyOk(body) && Shaped(pre, body, post) && AreLines(pre + body + post)
    ensures ReadIn(ls, n, body) && SectionValue(Join(pre + body + post + [""]), key) == SectionFrom(ls, 0, key)
  {
    DroppedShape(pre, body, post);
    SectionOfLines(pre + body + post, key);
    var before, tail := DropAll(pre), DropAll(post) + [""];
    n := |before|;
    ls := before + body + tail;
    assert ls == before + body + DropAll(post) + [""];
    Standing(before, body, tail);
    assert ls[n + |body|] == tail[0];
  }

  lemma SectionStands(content: string, baseUrl: string, model: string, key: string) returns (ls: seq<string>, n: nat)
    requires IsLine(baseUrl) && IsLine(model)
    ensures ReadIn(ls, n, Body(baseUrl, model))
    ensures SectionValue(SplitRoot(Patched(content, baseUrl, model)).1, key) == SectionFrom(ls, 0, key)
  {
    JoinSplit(content);
    BodyIsOk(baseUrl, model);
    PatchedParts(content, baseUrl, model);
    var body := Body(baseUrl, model);
    var pre, post := PatchedSectionsShape(Split(content), body);
    ls, n := StandsBetween(pre, body, post, key);
  }

  lemma EmptyGivesNothing(key: string)
    requires key != ""
    ensures ParseLines(Split(""), key) == ""
  {
    assert Split("") == [""] && [""][1..] == [];
    assert MatchHere(Join([""]), key) == None;
  }

  lemma SectionOfLines(w: seq<string>, key: string)
    requires AreLines(w)
    ensures SectionValue(Join(w + [""]), key) == SectionFrom(DropAll(w) + [""], 0, key)
  {
    DropCrJoin(w + [""]);
    DropBeforeEmpty(w);
    DropAllLines(w);
    SplitJoin(DropAll(w) + [""]);
  }

  lemma HeaderIsHeader()
    ensures IsHeader(HEADER)
  {
    TrimmedIsItself(HEADER);
  }

  /** The section of the patched file has the values that were written into it. */
  lemma SectionReads(content: string, baseUrl: string, model: string, k: nat, key: string, value: string)
    requires IsLine(baseUrl) && IsLine(model) && Unescaped(value) && IsKey(key)
    requires 1 <= k < |Body(baseUrl, model)| && Others(Body(baseUrl, model), 1, k, key) && Body(baseUrl, model)[k] == Assigned(key, value)
    ensures SectionValue(SplitRoot(Patched(content, baseUrl, model)).1, key) == value
  {
    var ls, n := SectionStands(content, baseUrl, model, key);
    ReadsInside(ls, n, Body(baseUrl, model), k, key, value);
  }

  /** What was patched in is what is read back. */
  lemma ReadsBack(content: string, baseUrl: string, model: string)
    requires Unescaped(baseUrl) && Unescaped(model)
    ensures ReadStatus(Patched(content, baseUrl, model)) == (baseUrl, model)
  {
    JoinSplit(content);
    UnescapedStays(baseUrl);
    UnescapedStays(model);
    SettingsPlain();
    SectionReads(content, baseUrl, model, 4, "base_url", baseUrl);
    PatchedParts(content, baseUrl, model);
    var ls := Split(content);
    FilterKept(ls[..RootEnd(ls, 0)]);
    RootShape(model, Filter(ls[..RootEnd(ls, 0)]));
    ReadsRoot(PatchedRoot(ls, model), model, PatchedRoot(ls, model)[|Head(model)|..]);
  }

  lemma ReadsRoot(root: seq<string>, model: string, kept: seq<string>)
    requires Unescaped(model) && root == Head(model) + kept && AreLines(root)
    ensures ParseLines(Split(Join(root + [""] + [""])), "model") == model
  {
    SplitJoin(root + [""] + [""]);
    ReadsModel(model, kept + [""] + [""]);
    assert root + [""] + [""] == Head(model) + (kept + [""] + [""]);
  }
}
