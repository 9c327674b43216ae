/** Strings as the backend sees them: whitespace, trimming and joining. */
module Text {
  datatype Option<+T> = None | Some(value: T)

  // ---------- white space ----------

  /** Text is a sequence of bytes, each held in a char. This is the white space
      in ASCII. */
  predicate IsSpace(c: char) {
    var n := c as int;
    9 <= n <= 13 || n == 0x20
  }

  predicate IsAscii(c: char) {
    c as int < 128
  }

  /** A byte that continues a character in UTF-8. */
  predicate Continues(c: char) {
    0x80 <= c as int < 0xC0
  }

  /** The other characters that Go's unicode.IsSpace accepts, as two or three
      bytes of UTF-8 at a position of a text. */
  predicate IsWideSpace(s: string, at: nat, n: nat)
    requires at + n <= |s|
  {
    if n == 2 then s[at] as int == 0xC2 && (s[at + 1] as int == 0x85 || s[at + 1] as int == 0xA0)
    else
      n == 3 &&
      var (l, m, n) := (s[at] as int, s[at + 1] as int, s[at + 2] as int);
      || (l == 0xE1 && m == 0x9A && n == 0x80)
      || (l == 0xE2 && m == 0x80 && (0x80 <= n <= 0x8A || n == 0xA8 || n == 0xA9 || n == 0xAF))
      || (l == 0xE2 && m == 0x81 && n == 0x9F)
      || (l == 0xE3 && m == 0x80 && n == 0x80)
  }

  /** The length, n or more, of the wide white space that a text begins with. */
  function LeadWide(s: string, n: nat): (k: nat)
    ensures k <= |s|
    decreases 4 - n
  {
    if n > 3 || n > |s| then 0 else if IsWideSpace(s, 0, n) then n else LeadWide(s, n + 1)
  }

  function TailWide(s: string, n: nat): (k: nat)
    ensures k <= |s|
    decreases 4 - n
  {
    if n > 3 || n > |s| then 0 else if IsWideSpace(s, |s| - n, n) then n else TailWide(s, n + 1)
  }

  /** The number of bytes of the white space character that a text begins with. */
  function LeadSpace(s: string): (n: nat)
    ensures n <= |s|
  {
    if s == "" then 0 else if IsAscii(s[0]) then (if IsSpace(s[0]) then 1 else 0) else LeadWide(s, 1)
  }

  /** Likewise for the one that it ends in. */
  function TailSpace(s: string): (n: nat)
    ensures n <= |s|
  {
    if s == "" then 0
    else if IsAscii(s[|s| - 1]) then (if IsSpace(s[|s| - 1]) then 1 else 0)
    else TailWide(s, 1)
  }

  function TrimLeft(s: string): string
    decreases |s|
  {
    if LeadSpace(s) > 0 then TrimLeft(s[LeadSpace(s)..]) else s
  }

  function TrimRight(s: string): string
    decreases |s|
  {
    if TailSpace(s) > 0 then TrimRight(s[..|s| - TailSpace(s)]) else s
  }

  function TrimSpace(s: string): string {
    TrimRight(TrimLeft(s))
  }

  predicate Blank(s: string) {
    TrimSpace(s) == ""
  }

  /** A string that neither begins nor ends in white space. */
  predicate Trimmed(s: string) {
    LeadSpace(s) == 0 && TailSpace(s) == 0
  }

  /** Nothing but white space characters. */
  predicate Spaces(s: string)
    decreases |s|
  {
    s == "" || (LeadSpace(s) > 0 && Spaces(s[LeadSpace(s)..]))
  }

  /** No white space character lies across the seam of two texts. */
  predicate Apart(x: string, y: string) {
    x == "" || y == "" || IsAscii(x[|x| - 1]) || TailSpace(x) > 0 || !Continues(y[0])
  }

  /** All lengths tried. */
  lemma LeadIs(s: string)
    ensures LeadSpace(s) == if s != "" && IsSpace(s[0]) then 1
                            else if |s| >= 2 && IsWideSpace(s, 0, 2) then 2 else if |s| >= 3 && IsWideSpace(s, 0, 3) then 3 else 0
  {
    assert LeadWide(s, 1) == (if |s| >= 1 then LeadWide(s, 2) else 0);
    assert |s| >= 2 && !IsWideSpace(s, 0, 2) ==> LeadWide(s, 2) == LeadWide(s, 3);
    assert |s| >= 3 && !IsWideSpace(s, 0, 3) ==> LeadWide(s, 3) == LeadWide(s, 4) == 0;
  }

  lemma TailIs(s: string)
    ensures var k := |s|;
            TailSpace(s) == if s != "" && IsSpace(s[k - 1]) then 1
                            else if k >= 2 && IsWideSpace(s, k - 2, 2) then 2 else if k >= 3 && IsWideSpace(s, k - 3, 3) then 3 else 0
  {
    var k := |s|;
    assert TailWide(s, 1) == (if k >= 1 then TailWide(s, 2) else 0);
    assert k >= 2 && !IsWideSpace(s, k - 2, 2) ==> TailWide(s, 2) == TailWide(s, 3);
    assert k >= 3 && !IsWideSpace(s, k - 3, 3) ==> TailWide(s, 3) == TailWide(s, 4) == 0;
  }

  lemma LeadApart(x: string, y: string)
    requires x != "" && Apart(x, y)
    ensures LeadSpace(x + y) == LeadSpace(x)
  {
    var s := x + y;
    LeadIs(x);
    LeadIs(s);
    TailIs(x);
    assert forall i :: 0 <= i < |x| ==> s[i] == x[i];
    assert y != "" ==> s[|x|] == y[0];
  }

  lemma TailApart(x: string, y: string)
    requires y != "" && Apart(x, y)
    ensures TailSpace(x + y) == TailSpace(y)
  {
    var s := x + y;
    TailIs(s);
    if TailSpace(y) > 0 {
      TailLast(x, y);
    } else if x == "" {
      assert s == y;
    } else {
      TailIs(y);
      TailIs(x);
      assert forall i :: 0 <= i < |y| ==> s[|x| + i] == y[i];
      assert s[|x| - 1] == x[|x| - 1] && (|x| > 1 ==> s[|x| - 2] == x[|x| - 2]);
    }
  }

  /** A white space character in front, or at the end, is found there. */
  lemma LeadFirst(x: string, y: string)
    requires LeadSpace(x) > 0
    ensures LeadSpace(x + y) == LeadSpace(x)
  {
    LeadIs(x);
    LeadIs(x + y);
    assert forall i :: 0 <= i < |x| ==> (x + y)[i] == x[i];
  }

  lemma TailLast(x: string, y: string)
    requires TailSpace(y) > 0
    ensures TailSpace(x + y) == TailSpace(y)
  {
    var s := x + y;
    TailIs(y);
    TailIs(s);
    assert forall i :: 0 <= i < |y| ==> s[|x| + i] == y[i];
  }

  /** A text that is one white space character. */
  lemma OneSpace(s: string)
    requires LeadSpace(s) > 0
    ensures var c := s[..LeadSpace(s)]; LeadSpace(c) == |c| == TailSpace(c) && !Continues(c[0]) && Spaces(c)
  {
    var c := s[..LeadSpace(s)];
    LeadIs(s);
    LeadIs(c);
    TailIs(c);
    assert c[|c|..] == "";
  }

  lemma OneSpaceAtEnd(s: string)
    requires TailSpace(s) > 0
    ensures var c := s[|s| - TailSpace(s)..]; LeadSpace(c) == |c| == TailSpace(c) && !Continues(c[0]) && Spaces(c)
  {
    var c := s[|s| - TailSpace(s)..];
    TailIs(s);
    LeadIs(c);
    TailIs(c);
    assert c[|c|..] == "";
  }

  lemma {:induction false} SpacesAppend(a: string, b: string)
    requires Spaces(a) && Spaces(b)
    ensures Spaces(a + b)
    decreases |a|
  {
    if a == "" {
      assert a + b == b;
    } else {
      LeadFirst(a, b);
      assert (a + b)[LeadSpace(a)..] == a[LeadSpace(a)..] + b;
      SpacesAppend(a[LeadSpace(a)..], b);
    }
  }

  lemma {:induction false} SpacesLast(s: string)
    requires Spaces(s) && s != ""
    ensures TailSpace(s) > 0 && Spaces(s[..|s| - TailSpace(s)])
    decreases |s|
  {
    var first, rest := s[..LeadSpace(s)], s[LeadSpace(s)..];
    OneSpace(s);
    assert s == first + rest;
    if rest == "" {
      OnlyOne(first);
    } else {
      SpacesLast(rest);
      SpacesBefore(first, rest);
    }
  }

  lemma OnlyOne(first: string)
    requires first != "" && TailSpace(first) == |first|
    ensures first + "" == first && Spaces(first[..|first| - TailSpace(first)])
  {
    assert first[..0] == "";
  }

  lemma SpacesBefore(first: string, rest: string)
    requires Spaces(first) && TailSpace(rest) > 0 && Spaces(rest[..|rest| - TailSpace(rest)])
    ensures var s := first + rest; TailSpace(s) > 0 && Spaces(s[..|s| - TailSpace(s)])
  {
    var s, n := first + rest, TailSpace(rest);
    TailLast(first, rest);
    SpacesAppend(first, rest[..|rest| - n]);
    assert s[..|s| - n] == first + rest[..|rest| - n];
  }

  /** White space in front, or at the end, is trimmed away. */
  lemma {:induction false} TrimLeftRun(run: string, s: string)
    requires Spaces(run)
    ensures TrimLeft(run + s) == TrimLeft(s)
    decreases |run|
  {
    if run == "" {
      assert run + s == s;
    } else {
      LeadFirst(run, s);
      assert (run + s)[LeadSpace(run)..] == run[LeadSpace(run)..] + s;
      TrimLeftRun(run[LeadSpace(run)..], s);
    }
  }

  lemma {:induction false} TrimRightRun(s: string, run: string)
    requires Spaces(run)
    ensures TrimRight(s + run) == TrimRight(s)
    decreases |run|
  {
    if run == "" {
      assert s + run == s;
    } else {
      SpacesLast(run);
      TrimRightLast(s, run);
      TrimRightRun(s, run[..|run| - TailSpace(run)]);
    }
  }

  lemma TrimRightLast(s: string, run: string)
    requires TailSpace(run) > 0
    ensures TrimRight(s + run) == TrimRight(s + run[..|run| - TailSpace(run)])
  {
    TailLast(s, run);
    FrontOf(s, run, TailSpace(run));
  }

  lemma FrontOf(s: string, run: string, n: nat)
    requires n <= |run|
    ensures (s + run)[..|s + run| - n] == s + run[..|run| - n]
  {
  }

  /** What trimming takes off. */
  function LeftRun(s: string): string
    decreases |s|
  {
    if LeadSpace(s) > 0 then s[..LeadSpace(s)] + LeftRun(s[LeadSpace(s)..]) else ""
  }

  function RightRun(s: string): string
    decreases |s|
  {
    if TailSpace(s) > 0 then RightRun(s[..|s| - TailSpace(s)]) + s[|s| - TailSpace(s)..] else ""
  }

  lemma LeftStep(s: string)
    requires LeadSpace(s) > 0
    ensures var first, rest := s[..LeadSpace(s)], s[LeadSpace(s)..];
            s == first + rest && Spaces(first) && LeftRun(s) == first + LeftRun(rest) && TrimLeft(s) == TrimLeft(rest)
  {
    OneSpace(s);
  }

  lemma RightStep(s: string)
    requires TailSpace(s) > 0
    ensures var front, last := s[..|s| - TailSpace(s)], s[|s| - TailSpace(s)..];
            s == front + last && Spaces(last) && RightRun(s) == RightRun(front) + last && TrimRight(s) == TrimRight(front)
  {
    OneSpaceAtEnd(s);
  }

  /** Trimming takes off white space and leaves none at that end. */
  lemma {:induction false} TrimLeftProps(s: string)
    ensures LeadSpace(TrimLeft(s)) == 0 && Spaces(LeftRun(s)) && s == LeftRun(s) + TrimLeft(s)
    decreases |s|
  {
    if LeadSpace(s) > 0 {
      var first, rest := s[..LeadSpace(s)], s[LeadSpace(s)..];
      LeftStep(s);
      TrimLeftProps(rest);
      SpacesAppend(first, LeftRun(rest));
      Assoc(first, LeftRun(rest), TrimLeft(rest));
    }
  }

  lemma {:induction false} TrimRightProps(s: string)
    ensures TailSpace(TrimRight(s)) == 0 && Spaces(RightRun(s)) && s == TrimRight(s) + RightRun(s)
    ensures TrimRight(s) <= s
    decreases |s|
  {
    if TailSpace(s) > 0 {
      var front, last := s[..|s| - TailSpace(s)], s[|s| - TailSpace(s)..];
      RightStep(s);
      TrimRightProps(front);
      SpacesAppend(RightRun(front), last);
      Assoc(TrimRight(front), RightRun(front), last);
    }
  }

  /** Nothing is left of white space, and of nothing else. */
  lemma BlankMeansSpaces(s: string)
    ensures Blank(s) <==> Spaces(s)
    ensures TrimLeft(s) == "" <==> Spaces(s)
    ensures TrimRight(s) == "" <==> Spaces(s)
  {
    LeftBlank(s);
    RightBlank(s);
    RightBlank(TrimLeft(s));
    TrimLeftProps(s);
  }

  lemma LeftBlank(s: string)
    ensures TrimLeft(s) == "" <==> Spaces(s)
  {
    TrimLeftProps(s);
    assert s + "" == s;
    if Spaces(s) {
      TrimLeftRun(s, "");
    }
  }

  lemma RightBlank(s: string)
    ensures TrimRight(s) == "" <==> Spaces(s)
  {
    if Spaces(s) {
      TrimRightRun("", s);
      assert "" + s == s;
    } else {
      TrimRightProps(s);
      assert "" + RightRun(s) == RightRun(s);
    }
  }

  lemma TrimSpaceTrimmed(s: string)
    ensures Trimmed(TrimSpace(s))
    ensures TrimSpace(TrimSpace(s)) == TrimSpace(s)
  {
    var left := TrimLeft(s);
    TrimLeftProps(s);
    TrimRightProps(left);
    if LeadSpace(TrimRight(left)) > 0 {
      LeadFirst(TrimRight(left), RightRun(left));
    }
    TrimmedIsItself(TrimSpace(s));
  }

  lemma TrimmedIsItself(s: string)
    requires Trimmed(s)
    ensures TrimSpace(s) == s
  {
  }

  /** White space that does not end inside a character is white space on both sides. */
  lemma {:induction false} SpacesSplit(a: string, b: string)
    requires b != "" && !Continues(b[0]) && Spaces(a + b)
    ensures Spaces(a) && Spaces(b)
    decreases |a|
  {
    if a == "" {
      assert a + b == b;
    } else {
      LeadApart(a, b);
      assert (a + b)[LeadSpace(a)..] == a[LeadSpace(a)..] + b;
      SpacesSplit(a[LeadSpace(a)..], b);
    }
  }

  lemma BlankSplit(a: string, b: string)
    ensures Blank(a) && Blank(b) ==> Blank(a + b)
    ensures b != "" && !Continues(b[0]) && Blank(a + b) ==> Blank(a) && Blank(b)
  {
    BlankMeansSpaces(a);
    BlankMeansSpaces(b);
    BlankMeansSpaces(a + b);
    if Spaces(a) && Spaces(b) {
      SpacesAppend(a, b);
    }
    if b != "" && !Continues(b[0]) && Spaces(a + b) {
      SpacesSplit(a, b);
    }
  }

  /** A text whose first and last characters are ASCII and no white space. */
  lemma SolidEnds(s: string)
    requires s != "" && IsAscii(s[0]) && !IsSpace(s[0]) && IsAscii(s[|s| - 1]) && !IsSpace(s[|s| - 1])
    ensures Trimmed(s) && TrimSpace(s) == s && !Blank(s)
  {
    TrimmedIsItself(s);
  }

  /** What does not begin in white space keeps its beginning. */
  lemma NotAllTrimmedRight(s: string)
    requires s != "" && LeadSpace(s) == 0
    ensures TrimRight(s) != ""
  {
    BlankMeansSpaces(s);
  }

  /** Trimming on the left of more text, and on the right. */
  lemma TrimLeftOnto(x: string, y: string)
    requires !Spaces(x) && Apart(x, y)
    ensures TrimLeft(x + y) == TrimLeft(x) + y
  {
    TrimLeftProps(x);
    BlankMeansSpaces(x);
    var run, left := LeftRun(x), TrimLeft(x);
    if TailSpace(x) > 0 {
      TailKept(x);
    }
    LeadApart(left, y);
    Assoc(run, left, y);
    TrimLeftRun(run, left + y);
  }

  /** Trimming on the left does not touch white space at the end of what stays. */
  lemma TailKept(x: string)
    requires !Spaces(x) && TailSpace(x) > 0
    ensures TailSpace(TrimLeft(x)) == TailSpace(x)
  {
    TrimLeftProps(x);
    BlankMeansSpaces(x);
    if LeftRun(x) != "" {
      SpacesLast(LeftRun(x));
    }
    TailApart(LeftRun(x), TrimLeft(x));
  }

  lemma TrimRightOnto(x: string, y: string)
    requires !Spaces(y) && Apart(x, y)
    ensures TrimRight(x + y) == x + TrimRight(y)
  {
    TrimRightProps(y);
    BlankMeansSpaces(y);
    TailApart(x, TrimRight(y));
    Assoc(x, TrimRight(y), RightRun(y));
    TrimRightRun(x + TrimRight(y), RightRun(y));
  }

  /** White space at the end does not matter to trimming on both sides. */
  lemma TrimSpaceRun(s: string, run: string)
    requires Spaces(run)
    ensures TrimSpace(s + run) == TrimSpace(s)
  {
    BlankMeansSpaces(s);
    if Spaces(s) {
      SpacesAppend(s, run);
      BlankMeansSpaces(s + run);
    } else {
      if run != "" {
        OneSpace(run);
      }
      TrimLeftOnto(s, run);
      TrimRightRun(TrimLeft(s), run);
    }
  }

  /** In ASCII text, character by character. */
  lemma {:induction false} AsciiSpaces(s: string)
    requires Ascii(s)
    ensures Spaces(s) <==> forall i :: 0 <= i < |s| ==> IsSpace(s[i])
    decreases |s|
  {
    if s != "" && IsSpace(s[0]) {
      AsciiSpaces(s[1..]);
      assert forall i :: 0 <= i < |s[1..]| ==> s[1..][i] == s[i + 1];
      assert forall i :: 0 < i < |s| ==> s[i] == s[1..][i - 1];
    }
  }

  predicate Ascii(s: string) {
    forall i :: 0 <= i < |s| ==> IsAscii(s[i])
  }

  lemma TrimShorter(s: string)
    ensures |TrimSpace(s)| <= |s|
  {
    TrimLeftProps(s);
    TrimRightProps(TrimLeft(s));
  }

  // ---------- case ----------

  function LowerChar(c: char): char {
    if 'A' <= c <= 'Z' then (c as int + 32) as char else c
  }

  function Lower(s: string): string {
    seq(|s|, i requires 0 <= i < |s| => LowerChar(s[i]))
  }

  /** Does a tag, in lower case, stand at a position in whatever case? */
  predicate StartsWithFolded(s: string, tag: string, at: nat) {
    at + |tag| <= |s| && forall i :: 0 <= i < |tag| ==> LowerChar(s[at + i]) == tag[i]
  }

  function FindFolded(s: string, tag: string, at: nat): (r: int)
    ensures r == -1 || (at <= r && r + |tag| <= |s|)
    decreases |s| - at
  {
    if StartsWithFolded(s, tag, at) then at
    else if at >= |s| then -1
    else FindFolded(s, tag, at + 1)
  }

  lemma {:induction false} NoTagIn(s: string, tag: string, at: nat)
    requires tag != "" && tag[0] == '<' && forall i :: 0 <= i < |s| ==> s[i] != '<'
    ensures FindFolded(s, tag, at) == -1
    decreases |s| - at
  {
    if at < |s| {
      var i := 0;
      assert LowerChar(s[at + i]) != tag[i];
      NoTagIn(s, tag, at + 1);
    }
  }

  // ---------- joining ----------

  /** strings.Join with an empty separator. */
  function Concat<T>(parts: seq<seq<T>>): seq<T> {
    if parts == [] then [] else parts[0] + Concat(parts[1..])
  }

  lemma {:induction false} ConcatAppend<T>(a: seq<seq<T>>, b: seq<seq<T>>)
    ensures Concat(a + b) == Concat(a) + Concat(b)
  {
    if a == [] {
      assert a + b == b;
    } else {
      ConcatAppend(a[1..], b);
      assert (a + b)[1..] == a[1..] + b;
      Assoc(a[0], Concat(a[1..]), Concat(b));
    }
  }

  lemma Assoc<T>(a: seq<T>, b: seq<T>, c: seq<T>)
    ensures (a + b) + c == a + (b + c)
  {
  }

  /** sharedproxy.FirstNonEmpty for two arguments. */
  function FirstNonEmpty(a: string, b: string): string {
    if TrimSpace(a) != "" then TrimSpace(a) else TrimSpace(b)
  }

  ghost predicate Distinct<T>(s: seq<T>) {
    forall i, j :: 0 <= i < j < |s| ==> s[i] != s[j]
  }

  /** Different elements of a set are no more than the set has. */
  lemma {:induction false} DistinctFit<T>(s: seq<T>, all: set<T>)
    requires Distinct(s) && forall x :: x in s ==> x in all
    ensures |s| <= |all|
    decreases |s|
  {
    if s != [] {
      var front, last := s[..|s| - 1], s[|s| - 1];
      forall x | x in front ensures x in all - {last} {
        var i :| 0 <= i < |front| && front[i] == x;
        assert s[i] != s[|s| - 1];
      }
      DistinctFit(front, all - {last});
    }
  }

  /** As many different elements of a set as it has are all of them. */
  lemma Reached<T>(s: seq<T>, all: set<T>, x: T) returns (i: nat)
    requires Distinct(s) && (forall y :: y in s ==> y in all) && |all| <= |s| && x in all
    ensures i < |s| && s[i] == x
  {
    if x !in s {
      DistinctFit(s, all - {x});
    }
    i :| 0 <= i < |s| && s[i] == x;
  }
}
