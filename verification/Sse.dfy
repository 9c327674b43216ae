/** Server-sent events: how the backend frames an event, and how the endpoint
    tester of the frontend takes the text apart again (section 9.2 of the WHATWG
    HTML standard). */
module Sse {
  import opened Text
  import opened JsonValues

  // ---------- writing ----------

  /** JSON.stringify / json.Marshal and JSON.parse, and what comes through both. */
  datatype Codec = Codec(encode: Json -> string, parse: string -> Option<Json>, range: Range)

  predicate OneLine(s: string) {
    forall i :: 0 <= i < |s| ==> s[i] != '\n' && s[i] != '\r'
  }

  /** Parsing inverts encoding on the values that are carried, encoded text has no
      line break, and the end marker of the OpenAI streams is not JSON. */
  ghost predicate Faithful(codec: Codec) {
    codec.parse("[DONE]").None? && Proper(codec.range) &&
    forall j: Json :: Carries(codec.range, j) ==> codec.parse(codec.encode(j)) == Some(j) && OneLine(codec.encode(j))
  }

  datatype Named = Named(name: string, payload: Json)

  /** WriteSSEEvent and WriteResponsesSSEEvent. */
  function WriteEvent(codec: Codec, e: Named): string {
    ("event: " + TrimSpace(e.name)) + ("\n" + (("data: " + codec.encode(e.payload)) + "\n\n"))
  }

  function WriteAll(codec: Codec, events: seq<Named>): string {
    if events == [] then "" else WriteEvent(codec, events[0]) + WriteAll(codec, events[1..])
  }

  // ---------- splitting ----------

  /** The length of a match of \r?\n at the front of s, 0 if there is none. */
  function LineBreak(s: string): (n: nat)
    ensures n <= |s|
  {
    var cr := if s != "" && s[0] == '\r' then 1 else 0;
    if cr < |s| && s[cr] == '\n' then cr + 1 else 0
  }

  /** Likewise for \r?\n\r?\n. */
  function SectionBreak(s: string): (n: nat)
    ensures n <= |s|
  {
    var first := LineBreak(s);
    if first == 0 then 0
    else
      var second := LineBreak(s[first..]);
      if second == 0 then 0 else first + second
  }

  type Break = b: string -> nat | forall s :: b(s) <= |s| witness (s: string) => 0

  /** s.split(pattern): cut at the leftmost match, again and again. */
  function Split(brk: Break, s: string, from: nat): seq<string>
    decreases |s| + 1, |s| - from
  {
    if from >= |s| then [s]
    else if brk(s[from..]) > 0 then [s[..from]] + Split(brk, s[from + brk(s[from..])..], 0)
    else Split(brk, s, from + 1)
  }

  lemma {:induction false} SplitAtFirst(brk: Break, s: string, from: nat, at: nat)
    requires from <= at < |s| && brk(s[at..]) > 0
    requires forall i :: from <= i < at ==> brk(s[i..]) == 0
    ensures Split(brk, s, from) == [s[..at]] + Split(brk, s[at + brk(s[at..])..], 0)
    decreases at - from
  {
    if from < at {
      SplitAtFirst(brk, s, from + 1, at);
    }
  }

  lemma {:induction false} SplitNowhere(brk: Break, s: string, from: nat)
    requires forall i :: from <= i < |s| ==> brk(s[i..]) == 0
    ensures Split(brk, s, from) == [s]
    decreases |s| - from
  {
    if from < |s| {
      SplitNowhere(brk, s, from + 1);
    }
  }

  lemma NoBreakInside(line: string, following: string, i: nat)
    requires OneLine(line) && i < |line|
    ensures LineBreak((line + following)[i..]) == 0
  {
    assert (line + following)[i..][0] == line[i];
  }

  /** A line of one event, then the rest. */
  lemma SplitLine(line: string, following: string)
    requires OneLine(line)
    ensures Split(LineBreak, line + ("\n" + following), 0) == [line] + Split(LineBreak, following, 0)
  {
    var s := line + ("\n" + following);
    assert s[|line|..] == "\n" + following;
    forall i | 0 <= i < |line| ensures LineBreak(s[i..]) == 0 {
      NoBreakInside(line, "\n" + following, i);
    }
    SplitAtFirst(LineBreak, s, 0, |line|);
    assert s[..|line|] == line && s[|line| + 1..] == following;
  }

  lemma SplitLastLine(line: string)
    requires OneLine(line)
    ensures Split(LineBreak, line, 0) == [line]
  {
    forall i | 0 <= i < |line| ensures LineBreak(line[i..]) == 0 {
      NoBreakInside(line, "", i);
      assert line + "" == line;
    }
    SplitNowhere(LineBreak, line, 0);
  }

  lemma SectionText(first: string, second: string, following: string)
    ensures first + ("\n" + (second + "\n\n")) + following == (first + ("\n" + second)) + ("\n\n" + following)
  {
  }

  lemma SectionEnd(following: string)
    ensures SectionBreak("\n\n" + following) == 2
  {
    assert ("\n\n" + following)[1..] == "\n" + following;
  }

  /** Two lines and a blank one are a section. */
  lemma SplitSection(first: string, second: string, following: string)
    requires OneLine(first) && OneLine(second) && second != ""
    ensures Split(SectionBreak, first + ("\n" + (second + "\n\n")) + following, 0)
            == [first + ("\n" + second)] + Split(SectionBreak, following, 0)
  {
    var body := first + ("\n" + second);
    SectionText(first, second, following);
    SectionEnd(following);
    forall i | 0 <= i < |body| ensures SectionBreak((body + ("\n\n" + following))[i..]) == 0 {
      NoSectionInside(first, second, following, i);
    }
    SplitAfterBody(body, "\n\n", following);
  }

  lemma SplitAfterBody(body: string, end: string, following: string)
    requires end != "" && SectionBreak(end + following) == |end|
    requires forall i :: 0 <= i < |body| ==> SectionBreak((body + (end + following))[i..]) == 0
    ensures Split(SectionBreak, body + (end + following), 0) == [body] + Split(SectionBreak, following, 0)
  {
    var s := body + (end + following);
    assert s[|body|..] == end + following;
    SplitAtFirst(SectionBreak, s, 0, |body|);
    assert s[..|body|] == body && s[|body| + |end|..] == following;
  }

  lemma NoSectionInside(first: string, second: string, following: string, i: nat)
    requires OneLine(first) && OneLine(second) && second != ""
    requires i < |first| + 1 + |second|
    ensures SectionBreak((first + ("\n" + (second + "\n\n")) + following)[i..]) == 0
  {
    var s := first + ("\n" + (second + "\n\n")) + following;
    if i == |first| {
      assert s[i..][0] == '\n' && s[i..][1..][0] == second[0];
      assert LineBreak(s[i..]) == 1;
    } else if i < |first| {
      assert s[i..][0] == first[i];
    } else {
      assert s[i..][0] == second[i - |first| - 1];
    }
  }

  // ---------- reading one section ----------

  /** JavaScript's trim on ASCII text. */
  predicate JsSpace(c: char) {
    var n := c as int;
    || 9 <= n <= 13 || n == 0x20 || n == 0xA0 || n == 0xFEFF || n == 0x1680
    || 0x2000 <= n <= 0x200A || n == 0x2028 || n == 0x2029 || n == 0x202F
    || n == 0x205F || n == 0x3000
  }

  function JsTrimLeft(s: string): string {
    if s != "" && JsSpace(s[0]) then JsTrimLeft(s[1..]) else s
  }

  function JsTrimRight(s: string): string {
    if s != "" && JsSpace(s[|s| - 1]) then JsTrimRight(s[..|s| - 1]) else s
  }

  function JsTrim(s: string): string {
    JsTrimRight(JsTrimLeft(s))
  }

  /** The event name and the data lines of a section. */
  datatype Section = Section(eventName: string, dataLines: seq<string>)

  function ReadLine(sec: Section, line: string): Section {
    if "event:" <= line then sec.(eventName := JsTrim(line[6..]))
    else if "data:" <= line then
      var data := line[5..];
      sec.(dataLines := sec.dataLines + [if data != "" && data[0] == ' ' then data[1..] else data])
    else sec
  }

  function ReadLines(sec: Section, lines: seq<string>): Section
    decreases |lines|
  {
    if lines == [] then sec else ReadLines(ReadLine(sec, lines[0]), lines[1..])
  }

  function JoinLines(lines: seq<string>): string {
    if lines == [] then "" else if |lines| == 1 then lines[0] else lines[0] + "\n" + JoinLines(lines[1..])
  }

  /** What a section of the payload says: nothing, or a name (empty if none was
      given) with parsed data. */
  function ReadSection(codec: Codec, section: string): Option<Named> {
    var sec := ReadLines(Section("", []), Split(LineBreak, section, 0));
    if sec.dataLines == [] then None
    else
      var raw := JoinLines(sec.dataLines);
      if raw == "[DONE]" then None
      else
        match codec.parse(raw)
        case None => None
        case Some(payload) => Some(Named(sec.eventName, payload))
  }

  function ReadSections(codec: Codec, sections: seq<string>): seq<Named> {
    if sections == [] then []
    else
      match ReadSection(codec, sections[0])
      case None => ReadSections(codec, sections[1..])
      case Some(e) => [e] + ReadSections(codec, sections[1..])
  }

  function ReadAll(codec: Codec, payload: string): seq<Named> {
    ReadSections(codec, Split(SectionBreak, payload, 0))
  }

  // ---------- the reader inverts the writer ----------

  /** The characters of the event names of both protocols; trimming in either
      language leaves such a name alone. */
  predicate PlainName(name: string) {
    name != "" && forall c :: c in name ==> 'a' <= c <= 'z' || c == '_' || c == '.'
  }

  lemma JsTrimName(name: string)
    requires PlainName(name)
    ensures JsTrim(" " + name) == name
  {
    assert (" " + name)[1..] == name;
    assert name[0] in name && name[|name| - 1] in name;
    assert JsTrimLeft(name) == name;
  }

  lemma NameLine(sec: Section, name: string)
    requires PlainName(name)
    ensures OneLine("event: " + name) && ReadLine(sec, "event: " + name) == sec.(eventName := name)
  {
    JsTrimName(name);
    assert forall i :: 0 <= i < |name| ==> name[i] in name;
    assert ("event: " + name)[6..] == " " + name;
  }

  lemma DataLine(sec: Section, json: string)
    requires OneLine(json)
    ensures OneLine("data: " + json) && ReadLine(sec, "data: " + json) == sec.(dataLines := sec.dataLines + [json])
  {
    var line := "data: " + json;
    assert line[0] == 'd' && "event:"[0] == 'e';
    assert line[5..] == " " + json;
    assert (" " + json)[1..] == json;
  }

  lemma ReadTwoLines(sec: Section, first: string, second: string)
    ensures ReadLines(sec, [first] + [second]) == ReadLine(ReadLine(sec, first), second)
  {
    assert ([first] + [second])[1..] == [second];
    assert ReadLines(ReadLine(sec, first), [second]) == ReadLine(ReadLine(sec, first), second) by {
      assert |[second][1..]| == 0;
    }
  }

  lemma LinesOfEvent(codec: Codec, e: Named)
    requires Faithful(codec) && PlainName(e.name) && Carries(codec.range, e.payload)
    ensures var first, second := "event: " + e.name, "data: " + codec.encode(e.payload);
            OneLine(first) && OneLine(second) && ReadSection(codec, first + ("\n" + second)) == Some(e)
  {
    var json := codec.encode(e.payload);
    assert codec.parse(json) == Some(e.payload) && OneLine(json);
    var first, second := "event: " + e.name, "data: " + json;
    var blank := Section("", []);
    NameLine(blank, e.name);
    DataLine(Section(e.name, []), json);
    SplitLine(first, second);
    SplitLastLine(second);
    ReadTwoLines(blank, first, second);
    assert [] + [json] == [json];
    assert JoinLines([json]) == json;
  }

  lemma ReadSectionsCons(codec: Codec, section: string, others: seq<string>, e: Named)
    requires ReadSection(codec, section) == Some(e)
    ensures ReadSections(codec, [section] + others) == [e] + ReadSections(codec, others)
  {
    assert ([section] + others)[1..] == others;
  }

  lemma NoData(codec: Codec, section: string)
    requires Split(LineBreak, section, 0) == [section] && !("event:" <= section) && !("data:" <= section)
    ensures ReadSection(codec, section) == None
  {
    var blank := Section("", []);
    assert |[section][1..]| == 0;
    assert ReadLines(blank, [section]) == ReadLines(ReadLine(blank, section), [section][1..]) == blank;
  }

  lemma NothingWritten(codec: Codec)
    ensures ReadAll(codec, "") == []
  {
    NoData(codec, "");
    var none := [""];
    assert |none[1..]| == 0;
    assert ReadSections(codec, none) == ReadSections(codec, none[1..]);
  }

  /** Reading what was written gives back every event, in order. */
  lemma {:induction false} FramingRoundTrip(codec: Codec, events: seq<Named>)
    requires Faithful(codec) && forall i :: 0 <= i < |events| ==> PlainName(events[i].name) && Carries(codec.range, events[i].payload)
    ensures ReadAll(codec, WriteAll(codec, events)) == events
    decreases |events|
  {
    if events == [] {
      NothingWritten(codec);
    } else {
      var e := events[0];
      FramingRoundTrip(codec, events[1..]);
      FirstSection(codec, e, WriteAll(codec, events[1..]));
    }
  }

  lemma FirstSection(codec: Codec, e: Named, following: string)
    requires Faithful(codec) && PlainName(e.name) && Carries(codec.range, e.payload)
    ensures ReadAll(codec, WriteEvent(codec, e) + following) == [e] + ReadAll(codec, following)
  {
    var first, second := "event: " + e.name, "data: " + codec.encode(e.payload);
    assert e.name[0] in e.name && e.name[|e.name| - 1] in e.name;
    TrimmedIsItself(e.name);
    LinesOfEvent(codec, e);
    SplitSection(first, second, following);
    ReadSectionsCons(codec, first + ("\n" + second), Split(SectionBreak, following, 0), e);
  }
}
