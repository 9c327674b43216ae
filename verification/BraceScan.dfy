/** The brace matcher of the Kiro stream decoder: a scan over UTF-8 runes that
    respects JSON strings and escapes, the equivalent scan over bytes, and the
    proof that it finds the end of every JSON object. */
module BraceScan {
  type Byte = c: char | c as int < 256 witness 'a'
  type Bytes = seq<Byte>

  datatype Rune = Rune(value: int, size: nat)

  const RuneError := 0xFFFD

  function At(s: Bytes, i: nat): int
    requires i < |s|
  {
    s[i] as int
  }

  predicate Continuation(b: int, low: int, high: int) {
    low <= b <= high
  }

  /** utf8.DecodeRuneInString on a non-empty string: an invalid or truncated
      sequence is RuneError of width one. */
  function DecodeRune(s: Bytes): (r: Rune)
    requires s != []
    ensures 1 <= r.size <= |s|
    ensures At(s, 0) < 0x80 ==> r == Rune(At(s, 0), 1)
    ensures At(s, 0) >= 0x80 ==> r.value >= 0x80
    ensures forall k :: 0 < k < r.size ==> At(s, k) >= 0x80
  {
    var b0 := At(s, 0);
    if b0 < 0x80 then Rune(b0, 1)
    else if b0 < 0xC2 || b0 > 0xF4 then Rune(RuneError, 1)
    else if b0 < 0xE0 then
      if |s| < 2 || !Continuation(At(s, 1), 0x80, 0xBF) then Rune(RuneError, 1)
      else Rune((b0 - 0xC0) * 64 + (At(s, 1) - 0x80), 2)
    else if b0 < 0xF0 then
      var low := if b0 == 0xE0 then 0xA0 else 0x80;
      var high := if b0 == 0xED then 0x9F else 0xBF;
      if |s| < 3 || !Continuation(At(s, 1), low, high) || !Continuation(At(s, 2), 0x80, 0xBF) then Rune(RuneError, 1)
      else Rune((b0 - 0xE0) * 4096 + (At(s, 1) - 0x80) * 64 + (At(s, 2) - 0x80), 3)
    else
      var low := if b0 == 0xF0 then 0x90 else 0x80;
      var high := if b0 == 0xF4 then 0x8F else 0xBF;
      if |s| < 4 || !Continuation(At(s, 1), low, high) || !Continuation(At(s, 2), 0x80, 0xBF) || !Continuation(At(s, 3), 0x80, 0xBF)
      then Rune(RuneError, 1)
      else Rune((b0 - 0xF0) * 262144 + (At(s, 1) - 0x80) * 4096 + (At(s, 2) - 0x80) * 64 + (At(s, 3) - 0x80), 4)
  }

  // ---------- the scan over bytes ----------

  datatype ScanState = ScanState(depth: int, inString: bool, escape: bool)

  const Outside := ScanState(0, false, false)

  function Step(s: ScanState, b: char): ScanState {
    if s.escape then s.(escape := false)
    else if b == '\\' && s.inString then s.(escape := true)
    else if b == '"' then s.(inString := !s.inString)
    else if !s.inString && b == '{' then s.(depth := s.depth + 1)
    else if !s.inString && b == '}' then s.(depth := s.depth - 1)
    else s
  }

  /** The byte that brings the brace count back to zero. */
  predicate Closes(s: ScanState, b: char) {
    !s.escape && !s.inString && b == '}' && s.depth == 1
  }

  function Scan(text: Bytes, i: nat, s: ScanState): int
    requires i <= |text|
    decreases |text| - i
  {
    if i == |text| then -1
    else if Closes(s, text[i]) then i
    else Scan(text, i + 1, Step(s, text[i]))
  }

  function MatchingBrace(text: Bytes, start: int): int {
    if start < 0 || start >= |text| || text[start] != '{' then -1
    else Scan(text, start, Outside)
  }

  /** Bytes from 0x80 up never change the scan, so skipping the rest of a
      multi-byte rune is the same as scanning it. */
  lemma {:induction false} SkipContinuation(text: Bytes, i: nat, j: nat, s: ScanState)
    requires i <= j <= |text|
    requires !s.escape
    requires forall k :: i <= k < j ==> At(text, k) >= 0x80
    ensures Scan(text, i, s) == Scan(text, j, s)
    decreases j - i
  {
    if i < j {
      assert At(text, i) >= 0x80;
      assert Step(s, text[i]) == s;
      SkipContinuation(text, i + 1, j, s);
    }
  }

  /** findMatchingBrace: the loop decodes runes, and its answer is the byte
      scan's answer on every byte string, valid UTF-8 or not. */
  method FindMatchingBrace(text: Bytes, startPos: int) returns (r: int)
    ensures r == MatchingBrace(text, startPos)
  {
    if startPos < 0 || startPos >= |text| || text[startPos] != '{' {
      return -1;
    }
    var braceCount, inString, escapeNext := 0, false, false;
    var i: nat := startPos;
    while i < |text|
      invariant i <= |text|
      invariant MatchingBrace(text, startPos) == Scan(text, i, ScanState(braceCount, inString, escapeNext))
    {
      var rune := DecodeRune(text[i..]);
      var next := i + rune.size;
      ghost var before := ScanState(braceCount, inString, escapeNext);
      assert forall k :: i < k < next ==> At(text, k) == At(text[i..], k - i);
      if escapeNext {
        escapeNext := false;
      } else if rune.value == '\\' as int && inString {
        escapeNext := true;
      } else if rune.value == '"' as int {
        inString := !inString;
      } else if !inString {
        if rune.value == '{' as int {
          braceCount := braceCount + 1;
        } else if rune.value == '}' as int {
          braceCount := braceCount - 1;
          if braceCount == 0 {
            return i;
          }
        }
      }
      ghost var after := ScanState(braceCount, inString, escapeNext);
      assert after == Step(before, text[i]) by {
        assert text[i..][0] == text[i];
      }
      if !after.escape {
        SkipContinuation(text, i + 1, next, after);
      }
      i := next;
    }
    return -1;
  }

  /** Bytes that arrive later do not move a match already found. */
  lemma {:induction false} ScanStable(text: Bytes, more: Bytes, i: nat, s: ScanState)
    requires i <= |text|
    requires Scan(text, i, s) != -1
    ensures Scan(text + more, i, s) == Scan(text, i, s)
    ensures i <= Scan(text, i, s) < |text|
    decreases |text| - i
  {
    if !Closes(s, text[i]) {
      ScanStable(text, more, i + 1, Step(s, text[i]));
    }
  }

  // ---------- JSON texts ----------

  /** A string item is a plain byte or a backslash with the byte after it (the
      hexadecimal digits of a \u escape are plain bytes). */
  datatype StringItem = Char(c: Byte) | Escape(e: Byte)

  /** Concrete JSON syntax with the whitespace kept.  Atoms are numbers and the
      three literals. */
  datatype Value =
    | Atom(token: Bytes)
    | Str(body: seq<StringItem>)
    | Array(pad: Bytes, elements: Elements)
    | Object(pad: Bytes, members: Members)

  datatype Elements =
    | NoElements
    | Element(before: Bytes, value: Value, after: Bytes, rest: Elements)

  datatype Members =
    | NoMembers
    | Member(lead: Bytes, key: seq<StringItem>, beforeColon: Bytes, afterColon: Bytes,
             value: Value, trail: Bytes, others: Members)

  /** Neither a brace, nor a quote, nor a backslash.  Every whitespace byte and
      every byte of a JSON number or literal is plain. */
  predicate Plain(s: Bytes) {
    forall i :: 0 <= i < |s| ==> s[i] !in "{}\"\\"
  }

  predicate WellFormedBody(body: seq<StringItem>) {
    forall i :: 0 <= i < |body| ==> (body[i].Char? ==> body[i].c != '"' && body[i].c != '\\')
  }

  predicate WellFormed(v: Value) {
    match v
    case Atom(token) => Plain(token)
    case Str(body) => WellFormedBody(body)
    case Array(pad, elements) => Plain(pad) && WellFormedElements(elements)
    case Object(pad, members) => Plain(pad) && WellFormedMembers(members)
  }

  predicate WellFormedElements(es: Elements) {
    match es
    case NoElements => true
    case Element(before, value, after, rest) =>
      Plain(before) && WellFormed(value) && Plain(after) && WellFormedElements(rest)
  }

  predicate WellFormedMembers(ms: Members) {
    match ms
    case NoMembers => true
    case Member(lead, key, beforeColon, afterColon, value, trail, others) =>
      Plain(lead) && WellFormedBody(key) && Plain(beforeColon) && Plain(afterColon) &&
      WellFormed(value) && Plain(trail) && WellFormedMembers(others)
  }

  function RenderBody(body: seq<StringItem>): Bytes {
    if body == [] then []
    else (match body[0] case Char(c) => [c] case Escape(e) => ['\\', e]) + RenderBody(body[1..])
  }

  function RenderString(body: seq<StringItem>): Bytes {
    "\"" + RenderBody(body) + "\""
  }

  function Render(v: Value): Bytes {
    match v
    case Atom(token) => token
    case Str(body) => RenderString(body)
    case Array(pad, elements) => "[" + pad + RenderElements(elements) + "]"
    case Object(pad, members) => "{" + (pad + RenderMembers(members)) + "}"
  }

  function RenderElements(es: Elements): Bytes {
    match es
    case NoElements => []
    case Element(before, value, after, rest) =>
      before + Render(value) + after + (if rest.NoElements? then [] else "," + RenderElements(rest))
  }

  function RenderMembers(ms: Members): Bytes {
    match ms
    case NoMembers => []
    case Member(lead, key, beforeColon, afterColon, value, trail, others) =>
      lead + RenderString(key) + beforeColon + ":" + afterColon + Render(value) + trail
      + (if others.NoMembers? then [] else "," + RenderMembers(others))
  }

  /** A list of two values, and a member of an object: what they are written as. */
  lemma Written(a: Value, b: Value, key: Bytes)
    requires Plain(key) && WellFormed(a) && WellFormed(b)
    ensures var two := Array([], Element([], a, [], Element([], b, [], NoElements)));
            WellFormed(two) && Render(two) == "[" + (Render(a) + ("," + (Render(b) + "]")))
    ensures var one := Object([], Member([], Letters(key), [], [], a, [], NoMembers));
            WellFormed(one) && Render(one) == "{\"" + (key + ("\":" + (Render(a) + "}")))
  {
    TwoWritten(a, b);
    OneWritten(a, key);
  }

  lemma LastElement(b: Value)
    requires WellFormed(b)
    ensures var last := Element([], b, [], NoElements); WellFormedElements(last) && RenderElements(last) == Render(b)
  {
    assert WellFormedElements(NoElements);
    assert [] + Render(b) + [] + [] == Render(b);
  }

  lemma FirstElement(a: Value, last: Elements)
    requires WellFormed(a) && WellFormedElements(last) && last.Element?
    ensures var two := Element([], a, [], last); WellFormedElements(two) && RenderElements(two) == Render(a) + ("," + RenderElements(last))
  {
    assert [] + Render(a) + [] + ("," + RenderElements(last)) == Render(a) + ("," + RenderElements(last));
  }

  lemma InBrackets(x: Bytes, y: Bytes)
    ensures "[" + [] + (x + ("," + y)) + "]" == "[" + (x + ("," + (y + "]")))
  {
  }

  lemma TwoWritten(a: Value, b: Value)
    requires WellFormed(a) && WellFormed(b)
    ensures var two := Array([], Element([], a, [], Element([], b, [], NoElements)));
            WellFormed(two) && Render(two) == "[" + (Render(a) + ("," + (Render(b) + "]")))
  {
    LastElement(b);
    FirstElement(a, Element([], b, [], NoElements));
    InBrackets(Render(a), Render(b));
    assert Plain([]);
  }

  function Letters(text: Bytes): seq<StringItem> {
    seq(|text|, i requires 0 <= i < |text| => Char(text[i]))
  }

  lemma {:induction false} LettersWritten(text: Bytes)
    ensures RenderBody(Letters(text)) == text
    decreases |text|
  {
    if text != [] {
      assert Letters(text)[1..] == Letters(text[1..]);
      LettersWritten(text[1..]);
    }
  }

  lemma OneMember(a: Value, key: Bytes)
    requires Plain(key) && WellFormed(a)
    ensures var m := Member([], Letters(key), [], [], a, [], NoMembers);
            WellFormedMembers(m) && RenderMembers(m) == "\"" + key + "\"" + ":" + Render(a)
  {
    LettersWritten(key);
    assert forall i :: 0 <= i < |key| ==> key[i] != '"' && key[i] != '\\';
    assert WellFormedBody(Letters(key)) && WellFormedMembers(NoMembers);
    assert [] + RenderString(Letters(key)) + [] + ":" + [] + Render(a) + [] + [] == RenderString(Letters(key)) + ":" + Render(a);
  }

  lemma InBraces(key: Bytes, x: Bytes)
    ensures "{" + ([] + ("\"" + key + "\"" + ":" + x)) + "}" == "{\"" + (key + ("\":" + (x + "}")))
  {
  }

  lemma OneWritten(a: Value, key: Bytes)
    requires Plain(key) && WellFormed(a)
    ensures var one := Object([], Member([], Letters(key), [], [], a, [], NoMembers));
            WellFormed(one) && Render(one) == "{\"" + (key + ("\":" + (Render(a) + "}")))
  {
    OneMember(a, key);
    InBraces(key, Render(a));
    assert Plain([]);
  }

  /** The state after a text, or None when a byte of it closes the scan. */
  datatype Progress = Stopped | Through(state: ScanState)

  function Run(s: ScanState, t: Bytes): Progress
    decreases |t|
  {
    if t == [] then Through(s)
    else if Closes(s, t[0]) then Stopped
    else Run(Step(s, t[0]), t[1..])
  }

  lemma {:induction false} RunAppend(s: ScanState, a: Bytes, b: Bytes)
    ensures Run(s, a + b) == match Run(s, a) case Stopped => Stopped case Through(s') => Run(s', b)
    decreases |a|
  {
    if a == [] {
      assert a + b == b;
    } else if !Closes(s, a[0]) {
      RunAppend(Step(s, a[0]), a[1..], b);
      assert (a + b)[1..] == a[1..] + b;
    }
  }

  lemma {:induction false} RunPlain(s: ScanState, t: Bytes)
    requires Plain(t) && !s.escape
    ensures Run(s, t) == Through(s)
    decreases |t|
  {
    if t != [] {
      assert t[0] !in "{}\"\\";
      assert Step(s, t[0]) == s;
      assert forall i :: 0 <= i < |t[1..]| ==> t[1..][i] == t[i + 1];
      RunPlain(s, t[1..]);
    }
  }

  lemma {:induction false} RunBody(s: ScanState, body: seq<StringItem>)
    requires WellFormedBody(body) && s.inString && !s.escape
    ensures Run(s, RenderBody(body)) == Through(s)
    decreases |body|
  {
    if body != [] {
      var first := match body[0] case Char(c) => [c] case Escape(e) => ['\\', e];
      RunBody(s, body[1..]);
      RunAppend(s, first, RenderBody(body[1..]));
      match body[0]
      case Char(c) =>
        assert Step(s, c) == s;
        assert first[1..] == [];
      case Escape(e) =>
        assert first[1..] == [e];
        assert first[1..][1..] == [];
        assert Step(Step(s, '\\'), e) == s;
    }
  }

  lemma RunByte(s: ScanState, b: Byte)
    requires !Closes(s, b)
    ensures Run(s, [b]) == Through(Step(s, b))
  {
    assert [b][1..] == [];
  }

  lemma RunString(s: ScanState, body: seq<StringItem>)
    requires WellFormedBody(body) && !s.inString && !s.escape
    ensures Run(s, RenderString(body)) == Through(s)
  {
    var inside := s.(inString := true);
    RunByte(s, '"');
    RunBody(inside, body);
    RunByte(inside, '"');
    RunAppend(s, "\"" + RenderBody(body), "\"");
    RunAppend(s, "\"", RenderBody(body));
  }

  /** Inside an object, a JSON value leaves the scan where it was. */
  lemma {:induction false} RunValue(s: ScanState, v: Value)
    requires WellFormed(v) && !s.inString && !s.escape && s.depth >= 1
    ensures Run(s, Render(v)) == Through(s)
    decreases v
  {
    match v
    case Atom(token) => RunPlain(s, token);
    case Str(body) => RunString(s, body);
    case Array(pad, elements) =>
      RunByte(s, '[');
      RunPlain(s, pad);
      RunElements(s, elements);
      RunByte(s, ']');
      RunAppend(s, "[" + pad + RenderElements(elements), "]");
      RunAppend(s, "[" + pad, RenderElements(elements));
      RunAppend(s, "[", pad);
    case Object(pad, members) =>
      RunObject(s, v);
      RunByte(s.(depth := s.depth + 1), '}');
      RunAppend(s, "{" + (pad + RenderMembers(members)), "}");
  }

  lemma {:induction false} RunElements(s: ScanState, es: Elements)
    requires WellFormedElements(es) && !s.inString && !s.escape && s.depth >= 1
    ensures Run(s, RenderElements(es)) == Through(s)
    decreases es
  {
    match es
    case NoElements =>
    case Element(before, value, after, rest) =>
      var tail := if rest.NoElements? then [] else "," + RenderElements(rest);
      if rest.Element? {
        RunElements(s, rest);
        RunComma(s, RenderElements(rest));
      }
      RunPlain(s, before);
      RunValue(s, value);
      RunPlain(s, after);
      RunFour(s, before, Render(value), after, tail);
  }

  lemma {:induction false} RunMembers(s: ScanState, ms: Members)
    requires WellFormedMembers(ms) && !s.inString && !s.escape && s.depth >= 1
    ensures Run(s, RenderMembers(ms)) == Through(s)
    decreases ms
  {
    match ms
    case NoMembers =>
    case Member(lead, key, beforeColon, afterColon, value, trail, others) =>
      var tail := if others.NoMembers? then [] else "," + RenderMembers(others);
      if others.Member? {
        RunMembers(s, others);
        RunComma(s, RenderMembers(others));
      }
      var head := lead + RenderString(key) + beforeColon + ":" + afterColon;
      RunHead(s, lead, key, beforeColon, afterColon);
      RunValue(s, value);
      RunPlain(s, trail);
      RunFour(s, head, Render(value), trail, tail);
  }

  lemma RunComma(s: ScanState, t: Bytes)
    requires !s.inString && !s.escape && Run(s, t) == Through(s)
    ensures Run(s, "," + t) == Through(s)
  {
    RunByte(s, ',');
    RunAppend(s, ",", t);
  }

  lemma RunFour(s: ScanState, a: Bytes, b: Bytes, c: Bytes, d: Bytes)
    requires Run(s, a) == Run(s, b) == Run(s, c) == Run(s, d) == Through(s)
    ensures Run(s, a + b + c + d) == Through(s)
  {
    RunAppend(s, a + b + c, d);
    RunAppend(s, a + b, c);
    RunAppend(s, a, b);
  }

  lemma RunHead(s: ScanState, lead: Bytes, key: seq<StringItem>, beforeColon: Bytes, afterColon: Bytes)
    requires Plain(lead) && WellFormedBody(key) && Plain(beforeColon) && Plain(afterColon)
    requires !s.inString && !s.escape
    ensures Run(s, lead + RenderString(key) + beforeColon + ":" + afterColon) == Through(s)
  {
    RunPlain(s, lead);
    RunString(s, key);
    RunPlain(s, beforeColon);
    RunByte(s, ':');
    RunPlain(s, afterColon);
    RunAppend(s, lead + RenderString(key) + beforeColon + ":", afterColon);
    RunAppend(s, lead + RenderString(key) + beforeColon, ":");
    RunAppend(s, lead + RenderString(key), beforeColon);
    RunAppend(s, lead, RenderString(key));
  }

  /** An object up to but excluding its closing brace. */
  lemma RunObject(s: ScanState, v: Value)
    requires v.Object? && WellFormed(v) && !s.inString && !s.escape && s.depth >= 0
    ensures Run(s, "{" + (v.pad + RenderMembers(v.members))) == Through(s.(depth := s.depth + 1))
    decreases v, 0
  {
    var inner := s.(depth := s.depth + 1);
    RunByte(s, '{');
    RunPlain(inner, v.pad);
    RunMembers(inner, v.members);
    RunAppend(inner, v.pad, RenderMembers(v.members));
    RunAppend(s, "{", v.pad + RenderMembers(v.members));
  }

  lemma {:induction false} ScanFollowsRun(text: Bytes, i: nat, t: Bytes, s: ScanState)
    requires i + |t| <= |text| && text[i..i + |t|] == t
    requires Run(s, t).Through?
    ensures Scan(text, i, s) == Scan(text, i + |t|, Run(s, t).state)
    decreases |t|
  {
    if t != [] {
      assert text[i] == text[i..i + |t|][0];
      assert text[i + 1..i + 1 + |t[1..]|] == text[i..i + |t|][1..];
      ScanFollowsRun(text, i + 1, t[1..], Step(s, t[0]));
    }
  }

  /** For every JSON object text, whatever follows it, the matcher started at
      its first byte answers with the index of its last byte. */
  lemma ObjectEnd(v: Value, following: Bytes)
    requires v.Object? && WellFormed(v)
    ensures MatchingBrace(Render(v) + following, 0) == |Render(v)| - 1
  {
    var open := "{" + (v.pad + RenderMembers(v.members));
    var text := Render(v) + following;
    RunObject(Outside, v);
    assert Render(v) == open + "}";
    assert text[0..|open|] == open;
    ScanFollowsRun(text, 0, open, Outside);
    assert text[|open|] == '}';
  }
}
