/** Text as lines: splitting, joining, trimming and carriage returns. */
module TextLines {
  import opened Text

  predicate IsLine(l: string) {
    '\n' !in l
  }

  predicate AreLines(ls: seq<string>) {
    forall i :: 0 <= i < |ls| ==> IsLine(ls[i])
  }

  /** strings.Split at line feeds. */
  function Split(s: string): (ls: seq<string>)
    ensures ls != []
  {
    if s == "" then [""]
    else if s[0] == '\n' then [""] + Split(s[1..])
    else var rest := Split(s[1..]); [[s[0]] + rest[0]] + rest[1..]
  }

  /** strings.Join with line feeds. */
  function Join(ls: seq<string>): string {
    if ls == [] then "" else if |ls| == 1 then ls[0] else ls[0] + "\n" + Join(ls[1..])
  }

  lemma {:induction false} SplitFirst(l: string, rest: string)
    requires IsLine(l)
    ensures Split(l + "\n" + rest) == [l] + Split(rest)
    decreases |l|
  {
    var s := l + "\n" + rest;
    if l == "" {
      assert s[1..] == rest;
    } else {
      SplitFirst(l[1..], rest);
      assert s[1..] == l[1..] + "\n" + rest;
      assert [l[0]] + l[1..] == l;
    }
  }

  lemma {:induction false} SplitLine(l: string)
    requires IsLine(l)
    ensures Split(l) == [l]
    decreases |l|
  {
    if l != "" {
      SplitLine(l[1..]);
      assert [l[0]] + l[1..] == l;
    }
  }

  lemma {:induction false} SplitJoin(ls: seq<string>)
    requires ls != [] && AreLines(ls)
    ensures Split(Join(ls)) == ls
    decreases |ls|
  {
    if |ls| == 1 {
      SplitLine(ls[0]);
    } else {
      SplitFirst(ls[0], Join(ls[1..]));
      SplitJoin(ls[1..]);
    }
  }

  lemma {:induction false} JoinSplit(s: string)
    ensures Join(Split(s)) == s && AreLines(Split(s))
    decreases |s|
  {
    if s != "" {
      JoinSplit(s[1..]);
      var rest := Split(s[1..]);
      if s[0] == '\n' {
        assert ([""] + rest)[1..] == rest;
        assert s == "" + "\n" + s[1..];
      } else {
        JoinHead(s[0], rest);
        assert s == [s[0]] + s[1..];
      }
    }
  }

  lemma JoinHead(c: char, ls: seq<string>)
    requires ls != []
    ensures Join([[c] + ls[0]] + ls[1..]) == [c] + Join(ls)
  {
    var more := [[c] + ls[0]] + ls[1..];
    assert more[1..] == ls[1..];
    if |ls| > 1 {
      assert ([c] + ls[0]) + "\n" + Join(ls[1..]) == [c] + (ls[0] + "\n" + Join(ls[1..]));
    }
  }

  lemma {:induction false} JoinAppend(a: seq<string>, b: seq<string>)
    requires a != [] && b != []
    ensures Join(a + b) == Join(a) + "\n" + Join(b)
    decreases |a|
  {
    assert (a + b)[1..] == a[1..] + b;
    if |a| > 1 {
      JoinAppend(a[1..], b);
      assert a[0] + "\n" + (Join(a[1..]) + "\n" + Join(b)) == (a[0] + "\n" + Join(a[1..])) + "\n" + Join(b);
    }
  }

  // ---------- trimming at the end ----------

  /** Trimming the end of a joined text, line by line. */
  function TrimLines(ls: seq<string>): (r: seq<string>)
    requires ls != []
    ensures r != []
  {
    var n := |ls| - 1;
    if n > 0 && Spaces(ls[n]) then TrimLines(ls[..n]) else ls[..n] + [TrimRight(ls[n])]
  }

  lemma {:induction false} TrimRightJoin(ls: seq<string>)
    requires ls != []
    ensures TrimRight(Join(ls)) == Join(TrimLines(ls))
    decreases |ls|
  {
    var n := |ls| - 1;
    var front, last := ls[..n], ls[n];
    assert ls == front + [last];
    if n > 0 {
      JoinAppend(front, [last]);
      if Spaces(last) {
        assert Join(ls) == Join(front) + ("\n" + last);
        assert ("\n" + last)[1..] == last;
        TrimRightRun(Join(front), "\n" + last);
        TrimRightJoin(front);
      } else {
        assert Join(ls) == (Join(front) + "\n") + last;
        TrimRightOnto(Join(front) + "\n", last);
        JoinAppend(front, [TrimRight(last)]);
      }
    } else {
      assert ls[..n] + [TrimRight(last)] == [TrimRight(last)];
    }
  }

  /** A list that trimming at the end leaves alone. */
  predicate TrimmedEnd(ls: seq<string>) {
    ls != [] && TrimRight(ls[|ls| - 1]) == ls[|ls| - 1] && (|ls| == 1 || !Spaces(ls[|ls| - 1]))
  }

  lemma {:induction false} TrimLinesTrimmed(ls: seq<string>)
    requires ls != []
    ensures TrimmedEnd(TrimLines(ls)) && (AreLines(ls) ==> AreLines(TrimLines(ls)))
    decreases |ls|
  {
    var n := |ls| - 1;
    TrimRightProps(ls[n]);
    if n > 0 && Spaces(ls[n]) {
      TrimLinesTrimmed(ls[..n]);
    } else {
      BlankMeansSpaces(ls[n]);
      var t := TrimRight(ls[n]);
      BlankMeansSpaces(t);
      assert forall i :: 0 <= i < |t| ==> t[i] == ls[n][i];
    }
  }

  lemma TrimmedEndStays(ls: seq<string>)
    requires TrimmedEnd(ls)
    ensures TrimLines(ls) == ls
  {
    var n := |ls| - 1;
    assert ls[..n] + [TrimRight(ls[n])] == ls;
  }

  lemma EmptyLastLine(ls: seq<string>)
    requires TrimmedEnd(ls)
    ensures TrimLines(ls + [""]) == ls
  {
    var more := ls + [""];
    assert more[|more| - 1] == "" && more[..|more| - 1] == ls;
    TrimmedEndStays(ls);
  }

  lemma {:induction false} TrimLinesFront(a: seq<string>, b: seq<string>)
    requires b != [] && !Spaces(b[0])
    ensures TrimLines(a + b) == a + TrimLines(b)
    decreases |b|
  {
    var n := |b| - 1;
    assert (a + b)[|a + b| - 1] == b[n] && (a + b)[..|a + b| - 1] == a + b[..n];
    if n > 0 && Spaces(b[n]) {
      TrimLinesFront(a, b[..n]);
    } else {
      assert (a + b[..n]) + [TrimRight(b[n])] == a + (b[..n] + [TrimRight(b[n])]);
    }
  }

  // ---------- carriage returns ----------

  /** strings.ReplaceAll of "\r\n" by "\n". */
  function DropCr(s: string): string {
    if |s| < 2 then s
    else if s[0] == '\r' && s[1] == '\n' then "\n" + DropCr(s[2..])
    else [s[0]] + DropCr(s[1..])
  }

  predicate EndsInCr(l: string) {
    l != "" && l[|l| - 1] == '\r'
  }

  function DropOne(l: string): string {
    if EndsInCr(l) then l[..|l| - 1] else l
  }

  function DropLines(ls: seq<string>): (r: seq<string>)
    ensures |r| == |ls|
  {
    if |ls| <= 1 then ls else [DropOne(ls[0])] + DropLines(ls[1..])
  }

  lemma DropCrShort(rest: string)
    ensures DropCr("\n" + rest) == "\n" + DropCr(rest)
    ensures DropCr("\r\n" + rest) == "\n" + DropCr(rest)
  {
    var plain, both := "\n" + rest, "\r\n" + rest;
    assert plain[1..] == rest;
    assert both[2..] == rest && both[0] == '\r' && both[1] == '\n';
  }

  lemma {:induction false} DropCrFirst(l: string, rest: string)
    requires IsLine(l)
    ensures DropCr(l + "\n" + rest) == DropOne(l) + "\n" + DropCr(rest)
    decreases |l|
  {
    DropCrShort(rest);
    if l == "" {
      assert l + "\n" + rest == "\n" + rest;
    } else if l == "\r" {
      assert l + "\n" + rest == "\r\n" + rest;
      assert DropOne(l) == "";
    } else {
      var tail := l[1..];
      assert l == [l[0]] + tail;
      DropCrFirst(tail, rest);
      Assoc(tail, "\n", rest);
      Assoc(l, "\n", rest);
      Assoc(DropOne(tail), "\n", DropCr(rest));
      Assoc(DropOne(l), "\n", DropCr(rest));
      DropCrMore(l[0], tail, "\n" + rest, "\n" + DropCr(rest));
    }
  }

  lemma DropCrMore(c: char, l: string, rest: string, dropped: string)
    requires IsLine([c] + l) && (l != "" || c != '\r') && rest != "" && DropCr(l + rest) == DropOne(l) + dropped
    ensures DropCr(([c] + l) + rest) == DropOne([c] + l) + dropped
  {
    var tail := l + rest;
    assert ([c] + l) + rest == [c] + tail;
    assert l != "" ==> l[0] == ([c] + l)[1] && tail[0] == l[0];
    DropCrPlain(c, tail);
    DropOneMore(c, l);
    Assoc([c], DropOne(l), dropped);
  }

  lemma DropOneMore(c: char, l: string)
    requires l != "" || c != '\r'
    ensures DropOne([c] + l) == [c] + DropOne(l)
  {
  }

  lemma DropCrPlain(c: char, tail: string)
    requires tail != "" && !(c == '\r' && tail[0] == '\n')
    ensures DropCr([c] + tail) == [c] + DropCr(tail)
  {
    assert ([c] + tail)[1..] == tail;
  }

  lemma {:induction false} DropCrLine(l: string)
    requires IsLine(l)
    ensures DropCr(l) == l
    decreases |l|
  {
    if |l| >= 2 {
      assert l[1] != '\n';
      DropCrLine(l[1..]);
      assert l == [l[0]] + l[1..];
    }
  }

  /** Every line but the last loses one carriage return at its end. */
  lemma {:induction false} DropCrJoin(ls: seq<string>)
    requires ls != [] && AreLines(ls)
    ensures DropCr(Join(ls)) == Join(DropLines(ls)) && AreLines(DropLines(ls))
    decreases |ls|
  {
    if |ls| == 1 {
      DropCrLine(ls[0]);
    } else {
      DropCrFirst(ls[0], Join(ls[1..]));
      DropCrJoin(ls[1..]);
      var r := [DropOne(ls[0])] + DropLines(ls[1..]);
      assert r[1..] == DropLines(ls[1..]);
    }
  }

  lemma {:induction false} DropLinesAt(ls: seq<string>, i: nat)
    requires i < |ls|
    ensures DropLines(ls)[i] == if i < |ls| - 1 then DropOne(ls[i]) else ls[i]
    decreases |ls|
  {
    if |ls| > 1 && i > 0 {
      DropLinesAt(ls[1..], i - 1);
    }
  }

  // ---------- trimming both ends ----------

  lemma TrimSpaceAfterRight(s: string)
    ensures TrimSpace(TrimRight(s)) == TrimSpace(s)
  {
    TrimRightProps(s);
    TrimSpaceRun(TrimRight(s), RightRun(s));
  }

  /** A carriage return at the end of a line does not matter to what is in it. */
  lemma TrimSpaceAfterDrop(l: string)
    ensures TrimSpace(DropOne(l)) == TrimSpace(l)
  {
    if EndsInCr(l) {
      var front := l[..|l| - 1];
      assert l == front + "\r";
      assert "\r"[1..] == "";
      TrimSpaceRun(front, "\r");
    }
  }

  /** Trimming a text that begins with something visible. */
  lemma TrimSpaceJoin(ls: seq<string>)
    requires ls != [] && ls[0] != "" && IsAscii(ls[0][0]) && !IsSpace(ls[0][0])
    ensures TrimSpace(Join(ls)) == Join(TrimLines(ls)) && !Blank(Join(ls))
  {
    TrimRightJoin(ls);
    var t := Join(ls);
    assert t != "" && t[0] == ls[0][0];
    NotAllTrimmedRight(t);
  }
}
