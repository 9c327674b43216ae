/** What the parts of the config.toml patcher mean in TOML's own terms: which lines
    begin a section, which root lines stay, what a written value reads as, and what
    the reader's pattern matches. */
module CodexTomlMeaning {
  import opened Text
  import opened TextLines
  import opened CodexToml

  // ---------- lines ----------

  /** A line begins a section when it is, trimmed, something in brackets. */
  lemma BracketMeans(l: string)
    ensures IsBracket(l) <==> exists name: string :: TrimSpace(l) == "[" + (name + "]")
  {
    var t := TrimSpace(l);
    if IsBracket(l) {
      assert |t| > 1;
      assert t == "[" + (t[1..|t| - 1] + "]");
    }
  }

  /** The settings that a patch takes over. */
  const TAKEN: seq<string> := ["model_provider", "model =", "openai_api_key", "openai_base_url"]

  /** A root line stays unless it is blank or sets one of these. */
  predicate Stays(l: string) {
    !Blank(l) && forall i :: 0 <= i < |TAKEN| ==> !(TAKEN[i] <= TrimSpace(l))
  }

  lemma KeptMeans(l: string)
    ensures Kept(l) <==> Stays(l)
  {
    if Kept(l) {
      forall i | 0 <= i < |TAKEN| ensures !(TAKEN[i] <= TrimSpace(l)) {
        assert TAKEN[i] in ["model_provider", "model =", "openai_api_key", "openai_base_url"];
      }
    } else if !Blank(l) {
      assert TAKEN[0] <= TrimSpace(l) || TAKEN[1] <= TrimSpace(l) || TAKEN[2] <= TrimSpace(l) || TAKEN[3] <= TrimSpace(l);
    }
  }

  /** Of some lines, those that stay, in order. */
  lemma {:induction false} FilterMeans(ls: seq<string>, l: string)
    ensures l in Filter(ls) <==> l in ls && Stays(l)
    decreases |ls|
  {
    if ls != [] {
      var front, last := ls[..|ls| - 1], ls[|ls| - 1];
      FilterMeans(front, l);
      KeptMeans(last);
      assert ls == front + [last];
    }
  }

  // ---------- values ----------

  /** A TOML basic string after its opening quote, with the two escapes that are
      written: its value and what follows the closing quote. */
  function ReadBasic(t: string): Option<(string, string)>
    decreases |t|
  {
    if t == "" then None
    else if t[0] == '"' then Some(("", t[1..]))
    else if t[0] == '\\' then
      if |t| > 1 && (t[1] == '\\' || t[1] == '"') then Prepend(t[1], ReadBasic(t[2..])) else None
    else Prepend(t[0], ReadBasic(t[1..]))
  }

  function Prepend(c: char, r: Option<(string, string)>): Option<(string, string)> {
    match r
    case None => None
    case Some((value, rest)) => Some(([c] + value, rest))
  }

  /** What a character is written as. */
  function Escaped(c: char): string {
    if c == '\\' then "\\\\" else if c == '"' then "\\\"" else [c]
  }

  lemma EscapeFirst(value: string)
    requires value != ""
    ensures Escape(value) == Escaped(value[0]) + Escape(value[1..])
  {
  }

  lemma ReadsFirst(c: char, t: string)
    ensures ReadBasic(Escaped(c) + t) == Prepend(c, ReadBasic(t))
  {
    var s := Escaped(c) + t;
    if c == '\\' || c == '"' {
      assert s[0] == '\\' && s[1] == c && s[2..] == t;
    } else {
      assert s[0] == c && s[1..] == t;
    }
  }

  /** Every value that is written reads as itself, whatever follows it. */
  lemma {:induction false} EscapeReads(value: string, rest: string)
    ensures ReadBasic(Escape(value) + ("\"" + rest)) == Some((value, rest))
    decreases |value|
  {
    var closed := "\"" + rest;
    if value == "" {
      assert "" + closed == closed && closed[1..] == rest;
    } else {
      EscapeReads(value[1..], rest);
      EscapeFirst(value);
      Assoc(Escaped(value[0]), Escape(value[1..]), closed);
      ReadsFirst(value[0], Escape(value[1..]) + closed);
      assert [value[0]] + value[1..] == value;
    }
  }

  // ---------- the reader's pattern ----------

  predicate AllWs(s: string) {
    forall i :: 0 <= i < |s| ==> s[i] in WHITE
  }

  const WHITE := [' ', '\t', '\n', '\U{c}', '\r']

  predicate NoQuote(s: string) {
    forall i :: 0 <= i < |s| ==> s[i] != '"'
  }

  /** White space, the key, an equals sign, a quoted value that is not empty, and
      nothing but white space up to the end of the line. */
  predicate Spells(t: string, key: string, value: string, a: string, b: string, c: string, d: string, rest: string) {
    && t == a + (key + (b + ("=" + (c + ("\"" + (value + ("\"" + (d + rest))))))))
    && AllWs(a) && AllWs(b) && AllWs(c) && AllWs(d) && value != "" && NoQuote(value) && (rest == "" || rest[0] == '\n')
  }

  lemma {:induction false} SkipWsSplits(t: string) returns (a: string)
    ensures t == a + SkipWs(t) && AllWs(a) && (SkipWs(t) == "" || !IsWs(SkipWs(t)[0]))
  {
    if t != "" && IsWs(t[0]) {
      a := SkipWsSplits(t[1..]);
      a := [t[0]] + a;
      assert t == [t[0]] + t[1..];
    } else {
      a := "";
    }
  }

  lemma {:induction false} SkipWsIs(a: string, x: string)
    requires AllWs(a) && (x == "" || !IsWs(x[0]))
    ensures SkipWs(a + x) == x
    decreases |a|
  {
    if a == "" {
      assert a + x == x;
    } else {
      assert (a + x)[1..] == a[1..] + x;
      SkipWsIs(a[1..], x);
    }
  }

  lemma {:induction false} EndsLineSplits(t: string) returns (d: string, rest: string)
    requires EndsLine(t)
    ensures t == d + rest && AllWs(d) && (rest == "" || rest[0] == '\n')
    decreases |t|
  {
    if t == "" || t[0] == '\n' {
      d, rest := "", t;
    } else {
      d, rest := EndsLineSplits(t[1..]);
      d := [t[0]] + d;
      assert t == [t[0]] + t[1..];
    }
  }

  lemma {:induction false} EndsLineIs(d: string, rest: string)
    requires AllWs(d) && (rest == "" || rest[0] == '\n')
    ensures EndsLine(d + rest)
    decreases |d|
  {
    if d == "" {
      assert d + rest == rest;
    } else {
      assert (d + rest)[1..] == d[1..] + rest;
      EndsLineIs(d[1..], rest);
    }
  }

  lemma {:induction false} UpToQuoteNone(t: string)
    ensures NoQuote(UpToQuote(t)) && (|UpToQuote(t)| < |t| ==> t[|UpToQuote(t)|] == '"')
    decreases |t|
  {
    if t != "" && t[0] != '"' {
      UpToQuoteNone(t[1..]);
    }
  }

  /** From a match to what was matched. */
  lemma MatchSplits(t: string, key: string, value: string) returns (a: string, b: string, c: string, d: string, rest: string)
    requires MatchHere(t, key) == Some(value)
    ensures Spells(t, key, value, a, b, c, d, rest)
  {
    a := SkipWsSplits(t);
    var afterKey := SkipWs(t)[|key|..];
    assert SkipWs(t) == key + afterKey;
    b, c, d, rest := EqualsSplits(afterKey, value);
  }

  lemma EqualsSplits(t: string, value: string) returns (b: string, c: string, d: string, rest: string)
    requires AfterKey(t) == Some(value)
    ensures t == b + ("=" + (c + ("\"" + (value + ("\"" + (d + rest))))))
    ensures AllWs(b) && AllWs(c) && AllWs(d) && value != "" && NoQuote(value) && (rest == "" || rest[0] == '\n')
  {
    b := SkipWsSplits(t);
    var afterEquals := SkipWs(t)[1..];
    assert SkipWs(t) == "=" + afterEquals;
    c := SkipWsSplits(afterEquals);
    d, rest := ValueSplits(SkipWs(afterEquals), value);
  }

  lemma ValueSplits(t: string, value: string) returns (d: string, rest: string)
    requires QuotedValue(t) == Some(value)
    ensures t == "\"" + (value + ("\"" + (d + rest)))
    ensures AllWs(d) && value != "" && NoQuote(value) && (rest == "" || rest[0] == '\n')
  {
    var quoted := t[1..];
    UpToQuoteNone(quoted);
    var tail := t[1 + |value|..];
    assert quoted == value + tail && t == "\"" + quoted;
    d, rest := EndsLineSplits(tail[1..]);
    assert tail == "\"" + tail[1..];
  }

  /** And back. */
  lemma SpelledMatches(t: string, key: string, value: string, a: string, b: string, c: string, d: string, rest: string)
    requires Spells(t, key, value, a, b, c, d, rest) && key != "" && !IsWs(key[0])
    ensures MatchHere(t, key) == Some(value)
  {
    var tail := d + rest;
    var quoted := "\"" + (value + ("\"" + tail));
    var equals := "=" + (c + quoted);
    var afterKey := b + equals;
    SkipWsIs(a, key + afterKey);
    assert (key + afterKey)[|key|..] == afterKey;
    SkipWsIs(b, equals);
    assert equals[1..] == c + quoted;
    SkipWsIs(c, quoted);
    ValueRead(quoted, value, d, rest);
  }

  lemma ValueRead(t: string, value: string, d: string, rest: string)
    requires t == "\"" + (value + ("\"" + (d + rest)))
    requires AllWs(d) && value != "" && NoQuote(value) && (rest == "" || rest[0] == '\n')
    ensures QuotedValue(t) == Some(value)
  {
    var tail := d + rest;
    assert t[1..] == value + ("\"" + tail);
    assert value + ("\"" + tail) == value + "\"" + tail;
    UpToQuoteIs(value, tail);
    assert t[1 + |value|..] == "\"" + tail;
    assert ("\"" + tail)[1..] == tail;
    EndsLineIs(d, rest);
  }

  /** The pattern matches at a line exactly what it spells, for every key. */
  lemma MatchMeans(t: string, key: string, value: string)
    requires key != "" && key[0] !in WHITE
    ensures MatchHere(t, key) == Some(value) <==> exists a, b, c, d, rest :: Spells(t, key, value, a, b, c, d, rest)
  {
    if MatchHere(t, key) == Some(value) {
      var a, b, c, d, rest := MatchSplits(t, key, value);
    }
    if exists a, b, c, d, rest :: Spells(t, key, value, a, b, c, d, rest) {
      var a, b, c, d, rest :| Spells(t, key, value, a, b, c, d, rest);
      SpelledMatches(t, key, value, a, b, c, d, rest);
    }
  }

  /** The value is that of the first line where the pattern matches. */
  lemma {:induction false} FirstMatch(ls: seq<string>, key: string)
    ensures ParseLines(ls, key) == "" ==> forall i :: 0 <= i < |ls| ==> MatchHere(Join(ls[i..]), key).None?
    ensures ParseLines(ls, key) != "" ==>
              exists i :: 0 <= i < |ls| && MatchHere(Join(ls[i..]), key) == Some(ParseLines(ls, key))
                          && forall k :: 0 <= k < i ==> MatchHere(Join(ls[k..]), key).None?
    decreases |ls|
  {
    if ls != [] {
      assert ls[0..] == ls;
      if MatchHere(Join(ls), key).Some? {
        MatchNotEmpty(Join(ls), key);
      } else {
        var rest := ls[1..];
        FirstMatch(rest, key);
        assert forall i :: 0 < i < |ls| ==> ls[i..] == rest[i - 1..];
        if ParseLines(rest, key) != "" {
          var i :| 0 <= i < |rest| && MatchHere(Join(rest[i..]), key) == Some(ParseLines(rest, key))
                   && forall k :: 0 <= k < i ==> MatchHere(Join(rest[k..]), key).None?;
          assert ls[i + 1..] == rest[i..];
        }
      }
    }
  }

  lemma MatchNotEmpty(t: string, key: string)
    requires MatchHere(t, key).Some?
    ensures MatchHere(t, key).value != ""
  {
    var a, b, c, d, rest := MatchSplits(t, key, MatchHere(t, key).value);
  }

  // ---------- the root ----------

  /** The old root lines that are kept. */
  function KeptLines(content: string): seq<string> {
    Filter(Split(content)[..RootEnd(Split(content), 0)])
  }

  lemma RootParts(content: string, model: string)
    requires IsLine(model)
    ensures var kept := KeptLines(content);
            PatchedRoot(Split(content), model) == Head(model) + (if kept == [] then [] else TrimLines(kept))
    ensures forall i :: 0 <= i < |KeptLines(content)| ==> Kept(KeptLines(content)[i])
  {
    FilterKept(Split(content)[..RootEnd(Split(content), 0)]);
    RootShape(model, KeptLines(content));
  }

  lemma RootJoined(content: string, baseUrl: string, model: string)
    requires IsLine(baseUrl) && IsLine(model)
    ensures SplitRoot(Patched(content, baseUrl, model)).0 == Join(PatchedRoot(Split(content), model) + [""] + [""])
  {
    PatchKeepsRoot(content, baseUrl, model);
    RootParts(content, model);
  }

  lemma RootIs(content: string, baseUrl: string, model: string)
    requires IsLine(baseUrl) && IsLine(model)
    ensures Split(SplitRoot(Patched(content, baseUrl, model)).0) == PatchedRoot(Split(content), model) + [""] + [""]
  {
    RootJoined(content, baseUrl, model);
    JoinSplit(content);
    RootUnbracketed(Split(content), model);
    EmptyLines(PatchedRoot(Split(content), model));
    SplitJoin(PatchedRoot(Split(content), model) + [""] + [""]);
  }

  lemma EmptyLines(ls: seq<string>)
    requires AreLines(ls)
    ensures AreLines(ls + [""] + [""])
  {
  }

  /** Every old root line that stays is in the root of the patched file, but for white
      space around it. */
  lemma RootKeeps(content: string, baseUrl: string, model: string, l: string) returns (k: string)
    requires IsLine(baseUrl) && IsLine(model)
    requires l in Split(content)[..RootEnd(Split(content), 0)] && Stays(l)
    ensures k in Split(SplitRoot(Patched(content, baseUrl, model)).0) && TrimSpace(k) == TrimSpace(l)
  {
    FilterMeans(Split(content)[..RootEnd(Split(content), 0)], l);
    RootParts(content, model);
    RootIs(content, baseUrl, model);
    k := KeptAtEnd(KeptLines(content), l);
    InParts(Head(model), TrimLines(KeptLines(content)), [""], [""], k);
  }

  lemma InParts<T>(a: seq<T>, b: seq<T>, c: seq<T>, d: seq<T>, x: T)
    ensures x in a + b + c + d <==> x in a || x in b || x in c || x in d
  {
  }

  /** Trimming the end leaves every kept line, since none is blank. */
  lemma KeptAtEnd(kept: seq<string>, l: string) returns (k: string)
    requires l in kept && forall i :: 0 <= i < |kept| ==> Kept(kept[i])
    ensures k in TrimLines(kept) && TrimSpace(k) == TrimSpace(l)
  {
    var i :| 0 <= i < |kept| && kept[i] == l;
    BlankMeansSpaces(kept[|kept| - 1]);
    TrimLinesSubstance(kept, i);
    k := TrimLines(kept)[i];
  }

  /** And nothing else that is not new: every line is one of the new settings, empty,
      or one that stays. */
  lemma RootAddsNothing(content: string, baseUrl: string, model: string, k: string)
    requires IsLine(baseUrl) && IsLine(model) && k in Split(SplitRoot(Patched(content, baseUrl, model)).0)
    ensures k in Head(model) || k == "" || Stays(k)
  {
    var kept := KeptLines(content);
    RootParts(content, model);
    RootIs(content, baseUrl, model);
    InParts(Head(model), if kept == [] then [] else TrimLines(kept), [""], [""], k);
    if kept != [] {
      KeptVisible(kept);
    }
    KeptMeans(k);
  }

  /** The section of the patched file, setting by setting; a model only if there is one. */
  lemma SectionSays(content: string, baseUrl: string, model: string)
    requires Unescaped(baseUrl) && (model == "" || Unescaped(model))
    ensures var sections := SplitRoot(Patched(content, baseUrl, model)).1;
            && SectionValue(sections, "name") == "custom" && SectionValue(sections, "wire_api") == "responses"
            && SectionValue(sections, "base_url") == baseUrl && SectionValue(sections, "model") == model
            && "requires_openai_auth = true" in Split(sections)
  {
    UnescapedStays(baseUrl);
    UnescapedStays(model);
    NameSaid(content, baseUrl, model);
    WireSaid(content, baseUrl, model);
    UrlSaid(content, baseUrl, model);
    if model == "" {
      NoModelSaid(content, baseUrl);
    } else {
      ModelSaid(content, baseUrl, model);
    }
    AuthSaid(content, baseUrl, model);
  }

  /** A setting that is always the same. */
  lemma SettingSaid(content: string, baseUrl: string, model: string, k: nat, key: string, value: string)
    requires IsLine(baseUrl) && IsLine(model) && Unescaped(value) && IsKey(key)
    requires 1 <= k <= 3 && SETTINGS[k - 1] == key + " = \"" + value + "\"" && key[0] == LETTERS[k]
    ensures SectionValue(SplitRoot(Patched(content, baseUrl, model)).1, key) == value
  {
    UnescapedStays(value);
    SaidAt(content, baseUrl, model, k, key, value);
  }

  lemma NameSaid(content: string, baseUrl: string, model: string)
    requires IsLine(baseUrl) && IsLine(model)
    ensures SectionValue(SplitRoot(Patched(content, baseUrl, model)).1, "name") == "custom"
  {
    SettingSaid(content, baseUrl, model, 1, "name", "custom");
  }

  lemma WireSaid(content: string, baseUrl: string, model: string)
    requires IsLine(baseUrl) && IsLine(model)
    ensures SectionValue(SplitRoot(Patched(content, baseUrl, model)).1, "wire_api") == "responses"
  {
    SettingSaid(content, baseUrl, model, 2, "wire_api", "responses");
  }

  lemma UrlSaid(content: string, baseUrl: string, model: string)
    requires Unescaped(baseUrl) && IsLine(model)
    ensures SectionValue(SplitRoot(Patched(content, baseUrl, model)).1, "base_url") == baseUrl
  {
    UnescapedStays(baseUrl);
    SaidAt(content, baseUrl, model, 4, "base_url", baseUrl);
  }

  lemma ModelSaid(content: string, baseUrl: string, model: string)
    requires IsLine(baseUrl) && Unescaped(model)
    ensures SectionValue(SplitRoot(Patched(content, baseUrl, model)).1, "model") == model
  {
    UnescapedStays(model);
    SaidAt(content, baseUrl, model, 5, "model", model);
  }

  /** The first letters of the settings, which differ. */
  const LETTERS := ['[', 'n', 'w', 'r', 'b', 'm']

  lemma Lettered(baseUrl: string, model: string)
    requires IsLine(baseUrl) && IsLine(model)
    ensures var body := Body(baseUrl, model);
            5 <= |body| <= 6 && forall j :: 1 <= j < |body| ==> Plain(body[j]) && body[j][0] == LETTERS[j]
  {
    FieldsPlain(baseUrl, model);
    var body, fields := Body(baseUrl, model), Fields(baseUrl, model);
    forall j | 1 <= j < |body| ensures Plain(body[j]) && body[j][0] == LETTERS[j] {
      assert body[j] == fields[j - 1];
    }
  }

  lemma SaidAt(content: string, baseUrl: string, model: string, k: nat, key: string, value: string)
    requires IsLine(baseUrl) && IsLine(model) && Unescaped(value) && IsKey(key)
    requires 1 <= k < |Body(baseUrl, model)| && k < 6 && Body(baseUrl, model)[k] == Assigned(key, value) && key[0] == LETTERS[k]
    ensures SectionValue(SplitRoot(Patched(content, baseUrl, model)).1, key) == value
  {
    Lettered(baseUrl, model);
    var body := Body(baseUrl, model);
    assert forall j :: 1 <= j < k ==> LETTERS[j] != LETTERS[k];
    assert Others(body, 1, k, key);
    SectionReads(content, baseUrl, model, k, key, value);
  }

  lemma NoModelSaid(content: string, baseUrl: string)
    requires Unescaped(baseUrl)
    ensures SectionValue(SplitRoot(Patched(content, baseUrl, "")).1, "model") == ""
  {
    UnescapedStays(baseUrl);
    OthersThanModel(baseUrl);
    var ls, n := SectionStands(content, baseUrl, "", "model");
    ReadsNothing(ls, n, Body(baseUrl, ""), "model");
  }

  lemma OthersThanModel(baseUrl: string)
    requires IsLine(baseUrl)
    ensures Others(Body(baseUrl, ""), 1, |Body(baseUrl, "")|, "model")
  {
    Lettered(baseUrl, "");
    assert forall j :: 1 <= j < 5 ==> LETTERS[j] != 'm';
  }

  lemma AuthSaid(content: string, baseUrl: string, model: string)
    requires IsLine(baseUrl) && IsLine(model)
    ensures "requires_openai_auth = true" in Split(SplitRoot(Patched(content, baseUrl, model)).1)
  {
    JoinSplit(content);
    BodyIsOk(baseUrl, model);
    PatchedParts(content, baseUrl, model);
    var body := Body(baseUrl, model);
    var pre, post := PatchedSectionsShape(Split(content), body);
    LineBetween(pre, body, post, 3);
  }

  lemma LineBetween(pre: seq<string>, body: seq<string>, post: seq<string>, k: nat)
    requires AreLines(pre + body + post) && k < |body|
    ensures body[k] in Split(Join(pre + body + post + [""]))
  {
    var ls := pre + body + post + [""];
    assert ls[|pre| + k] == body[k];
    SplitJoin(ls);
  }
}
