/** The part of the Kiro stream parser that does not depend on what an event
    does: cut complete objects off the front of a growing buffer, each starting
    at the earliest of several patterns, and hand them to a handler. */
module PatternSplitter {
  import opened Text
  import opened BraceScan

  predicate Matches(buf: Bytes, i: int, sub: Bytes) {
    0 <= i && i + |sub| <= |buf| && buf[i..i + |sub|] == sub
  }

  /** strings.Index(buf, sub), scanning from i. */
  function Index(buf: Bytes, sub: Bytes, i: nat): int
    requires i <= |buf|
    decreases |buf| - i
  {
    if Matches(buf, i, sub) then i
    else if i == |buf| then -1
    else Index(buf, sub, i + 1)
  }

  lemma {:induction false} IndexFirst(buf: Bytes, sub: Bytes, i: nat)
    requires i <= |buf|
    ensures var r := Index(buf, sub, i);
            (r == -1 ==> forall j {:trigger Matches(buf, j, sub)} :: i <= j ==> !Matches(buf, j, sub)) &&
            (r != -1 ==> i <= r <= |buf| && Matches(buf, r, sub) &&
                         forall j {:trigger Matches(buf, j, sub)} :: i <= j < r ==> !Matches(buf, j, sub))
    decreases |buf| - i
  {
    if !Matches(buf, i, sub) && i < |buf| {
      IndexFirst(buf, sub, i + 1);
    }
  }

  method IndexOf(buf: Bytes, sub: Bytes) returns (idx: int)
    ensures idx == Index(buf, sub, 0)
  {
    var i := 0;
    while i <= |buf|
      invariant 0 <= i <= |buf| + 1
      invariant i <= |buf| ==> Index(buf, sub, 0) == Index(buf, sub, i)
      invariant i > |buf| ==> Index(buf, sub, 0) == -1
    {
      if Matches(buf, i, sub) {
        return i;
      }
      i := i + 1;
    }
    return -1;
  }

  // ---------- the earliest pattern ----------

  /** An opening brace occurs at the front of a pattern and nowhere else in it,
      and no pattern is a prefix of another. */
  ghost predicate Shaped(ps: seq<Bytes>) {
    && (forall w :: 0 <= w < |ps| ==> |ps[w]| > 0 && ps[w][0] == '{' && '{' !in ps[w][1..])
    && (forall v, w :: 0 <= v < |ps| && 0 <= w < |ps| && v != w ==> !(ps[v] <= ps[w]))
  }

  datatype Found = Found(pos: nat, which: nat)

  ghost predicate IsEarliest(ps: seq<Bytes>, buf: Bytes, f: Found) {
    f.which < |ps| && Matches(buf, f.pos, ps[f.which]) &&
    forall i, w {:trigger Matches(buf, i, ps[w])} :: 0 <= w < |ps| && i < f.pos ==> !Matches(buf, i, ps[w])
  }

  lemma EarliestUnique(ps: seq<Bytes>, buf: Bytes, f: Found, g: Found)
    requires Shaped(ps) && IsEarliest(ps, buf, f) && IsEarliest(ps, buf, g)
    ensures f == g
  {
    assert f.pos == g.pos;
    if f.which != g.which {
      OnePrefixOfOther(buf, f.pos, ps[f.which], ps[g.which]);
    }
  }

  lemma OnePrefixOfOther(buf: Bytes, i: int, a: Bytes, b: Bytes)
    requires Matches(buf, i, a) && Matches(buf, i, b)
    ensures a <= b || b <= a
  {
    if |a| <= |b| {
      assert a == b[..|a|];
    } else {
      assert b == a[..|b|];
    }
  }

  /** The pattern loop of feed over the first n patterns: the smallest index
      wins, and the pattern listed first on a tie. */
  function EarliestOf(ps: seq<Bytes>, buf: Bytes, n: nat): (r: Option<Found>)
    requires n <= |ps|
    ensures r.Some? ==> r.value.pos <= |buf| && r.value.which < n
  {
    if n == 0 then None
    else
      var best := EarliestOf(ps, buf, n - 1);
      var idx := Index(buf, ps[n - 1], 0);
      IndexFirst(buf, ps[n - 1], 0);
      if idx != -1 && (best.None? || idx < best.value.pos) then Some(Found(idx, n - 1)) else best
  }

  lemma {:induction false} EarliestOfProps(ps: seq<Bytes>, buf: Bytes, n: nat)
    requires n <= |ps|
    ensures match EarliestOf(ps, buf, n)
            case None => forall i, w {:trigger Matches(buf, i, ps[w])} :: 0 <= w < n ==> !Matches(buf, i, ps[w])
            case Some(f) => Matches(buf, f.pos, ps[f.which]) &&
                            forall i, w {:trigger Matches(buf, i, ps[w])} :: 0 <= w < n && i < f.pos ==> !Matches(buf, i, ps[w])
  {
    if n > 0 {
      EarliestOfProps(ps, buf, n - 1);
      IndexFirst(buf, ps[n - 1], 0);
    }
  }

  function Earliest(ps: seq<Bytes>, buf: Bytes): (r: Option<Found>)
    ensures r.None? ==> forall i, w {:trigger Matches(buf, i, ps[w])} :: 0 <= w < |ps| ==> !Matches(buf, i, ps[w])
    ensures r.Some? ==> IsEarliest(ps, buf, r.value)
  {
    EarliestOfProps(ps, buf, |ps|);
    EarliestOf(ps, buf, |ps|)
  }

  /** The pattern loop itself; pos is -1 when no pattern occurs. */
  method FindEarliest(ps: seq<Bytes>, buf: Bytes) returns (pos: int, which: nat)
    ensures Earliest(ps, buf) == if pos < 0 then None else Some(Found(pos, which))
  {
    pos, which := -1, 0;
    var n := 0;
    while n < |ps|
      invariant 0 <= n <= |ps| && pos >= -1
      invariant EarliestOf(ps, buf, n) == if pos < 0 then None else Some(Found(pos, which))
    {
      var idx := IndexOf(buf, ps[n]);
      IndexFirst(buf, ps[n], 0);
      if idx != -1 && (pos == -1 || idx < pos) {
        pos, which := idx, n;
      }
      n := n + 1;
    }
  }

  /** Bytes that arrive later cannot create an earlier pattern: it would have
      to run over the opening brace of the one already found. */
  lemma EarliestStable(ps: seq<Bytes>, buf: Bytes, more: Bytes)
    requires Shaped(ps) && Earliest(ps, buf).Some?
    ensures Earliest(ps, buf + more) == Earliest(ps, buf)
  {
    var f := Earliest(ps, buf).value;
    var all := buf + more;
    var p := ps[f.which];
    assert all[f.pos..f.pos + |p|] == buf[f.pos..f.pos + |p|];
    assert buf[f.pos] == buf[f.pos..f.pos + |p|][0] == '{';
    forall i, w | 0 <= w < |ps| && i < f.pos ensures !Matches(all, i, ps[w]) {
      NoOverlap(ps, buf, more, f, i, w);
    }
    assert IsEarliest(ps, all, f);
    EarliestUnique(ps, all, f, Earliest(ps, all).value);
  }

  lemma NoOverlap(ps: seq<Bytes>, buf: Bytes, more: Bytes, f: Found, i: int, w: int)
    requires Shaped(ps) && IsEarliest(ps, buf, f) && buf[f.pos] == '{'
    requires 0 <= w < |ps| && i < f.pos
    ensures !Matches(buf + more, i, ps[w])
  {
    var all := buf + more;
    var q := ps[w];
    if 0 <= i && i + |q| <= |all| {
      if i + |q| <= |buf| {
        assert all[i..i + |q|] == buf[i..i + |q|];
        assert !Matches(buf, i, ps[w]);
      } else {
        assert all[i..i + |q|][f.pos - i] == '{';
        assert q[f.pos - i] == q[1..][f.pos - i - 1];
      }
    }
  }

  // ---------- one buffered event ----------

  datatype Cut = Cut(pos: nat, end: nat, which: nat)

  /** The next complete object in the buffer, if there is one. */
  function NextEvent(ps: seq<Bytes>, buf: Bytes): (r: Option<Cut>)
    ensures r.Some? ==> r.value.pos <= r.value.end < |buf| && r.value.which < |ps|
  {
    match Earliest(ps, buf)
    case None => None
    case Some(f) =>
      var end := MatchingBrace(buf, f.pos);
      if end == -1 then None
      else
        ScanStable(buf, [], f.pos, Outside);
        Some(Cut(f.pos, end, f.which))
  }

  method NextCut(ps: seq<Bytes>, buf: Bytes) returns (cut: Option<Cut>)
    ensures cut == NextEvent(ps, buf)
  {
    var pos, which := FindEarliest(ps, buf);
    if pos < 0 {
      return None;
    }
    var end := FindMatchingBrace(buf, pos);
    if end == -1 {
      return None;
    }
    ScanStable(buf, [], pos, Outside);
    return Some(Cut(pos, end, which));
  }

  lemma NextEventStable(ps: seq<Bytes>, buf: Bytes, more: Bytes)
    requires Shaped(ps) && NextEvent(ps, buf).Some?
    ensures NextEvent(ps, buf + more) == NextEvent(ps, buf)
  {
    EarliestStable(ps, buf, more);
    ScanStable(buf, more, Earliest(ps, buf).value.pos, Outside);
  }

  // ---------- feeding ----------

  /** What has been made of the events so far, and the bytes still waiting. */
  datatype State<S> = State(got: S, buffer: Bytes)

  /** Handle whole objects from the front of the buffer until none is left. */
  function Drain<S>(ps: seq<Bytes>, handle: (S, nat, Bytes) -> S, s: State<S>): State<S>
    decreases |s.buffer|
  {
    match NextEvent(ps, s.buffer)
    case None => s
    case Some(cut) => Drain(ps, handle, AfterCut(handle, s, cut))
  }

  function AfterCut<S>(handle: (S, nat, Bytes) -> S, s: State<S>, cut: Cut): State<S>
    requires cut.pos <= cut.end < |s.buffer|
  {
    State(handle(s.got, cut.which, s.buffer[cut.pos..cut.end + 1]), s.buffer[cut.end + 1..])
  }

  function Feed<S>(ps: seq<Bytes>, handle: (S, nat, Bytes) -> S, s: State<S>, chunk: Bytes): State<S> {
    Drain(ps, handle, State(s.got, s.buffer + chunk))
  }

  function FeedAll<S>(ps: seq<Bytes>, handle: (S, nat, Bytes) -> S, s: State<S>, chunks: seq<Bytes>): State<S>
    decreases |chunks|
  {
    if chunks == [] then s else FeedAll(ps, handle, Feed(ps, handle, s, chunks[0]), chunks[1..])
  }

  /** Draining early and draining again after more bytes is draining once. */
  lemma {:induction false} DrainAppend<S>(ps: seq<Bytes>, handle: (S, nat, Bytes) -> S, s: State<S>, more: Bytes)
    requires Shaped(ps)
    ensures Drain(ps, handle, State(s.got, s.buffer + more)) == Feed(ps, handle, Drain(ps, handle, s), more)
    decreases |s.buffer|
  {
    match NextEvent(ps, s.buffer)
    case None =>
    case Some(cut) =>
      NextEventStable(ps, s.buffer, more);
      var all := s.buffer + more;
      assert all[cut.pos..cut.end + 1] == s.buffer[cut.pos..cut.end + 1];
      assert all[cut.end + 1..] == s.buffer[cut.end + 1..] + more;
      DrainAppend(ps, handle, AfterCut(handle, s, cut), more);
  }

  /** No whole object is buffered; every feed leaves such a state. */
  predicate Settled<S>(ps: seq<Bytes>, s: State<S>) {
    NextEvent(ps, s.buffer).None?
  }

  lemma {:induction false} DrainSettles<S>(ps: seq<Bytes>, handle: (S, nat, Bytes) -> S, s: State<S>)
    ensures Settled(ps, Drain(ps, handle, s))
    decreases |s.buffer|
  {
    match NextEvent(ps, s.buffer)
    case None =>
    case Some(cut) => DrainSettles(ps, handle, AfterCut(handle, s, cut));
  }

  /** Feeding chunk by chunk is feeding the concatenation at once. */
  lemma {:induction false} FeedAllAtOnce<S>(ps: seq<Bytes>, handle: (S, nat, Bytes) -> S, s: State<S>, chunks: seq<Bytes>)
    requires Shaped(ps) && Settled(ps, s)
    ensures FeedAll(ps, handle, s, chunks) == Feed(ps, handle, s, Concat(chunks))
    decreases |chunks|
  {
    if chunks == [] {
      assert s.buffer + [] == s.buffer;
    } else {
      var loaded := State(s.got, s.buffer + chunks[0]);
      DrainSettles(ps, handle, loaded);
      FeedAllAtOnce(ps, handle, Drain(ps, handle, loaded), chunks[1..]);
      DrainAppend(ps, handle, loaded, Concat(chunks[1..]));
      assert s.buffer + Concat(chunks) == s.buffer + chunks[0] + Concat(chunks[1..]);
    }
  }

  // ---------- whole events ----------

  /** A JSON object text that begins with the pattern it names. */
  datatype Event = Event(which: nat, value: Value)

  predicate Valid(ps: seq<Bytes>, e: Event) {
    e.which < |ps| && e.value.Object? && WellFormed(e.value) && ps[e.which] <= Render(e.value)
  }

  predicate AllValid(ps: seq<Bytes>, events: seq<Event>) {
    forall i :: 0 <= i < |events| ==> Valid(ps, events[i])
  }

  function Texts(events: seq<Event>): Bytes {
    if events == [] then [] else Render(events[0].value) + Texts(events[1..])
  }

  function HandleAll<S>(handle: (S, nat, Bytes) -> S, got: S, events: seq<Event>): S
    decreases |events|
  {
    if events == [] then got
    else HandleAll(handle, handle(got, events[0].which, Render(events[0].value)), events[1..])
  }

  lemma FirstEvent(ps: seq<Bytes>, e: Event, following: Bytes)
    requires Shaped(ps) && Valid(ps, e)
    ensures |Render(e.value)| > 0
    ensures NextEvent(ps, Render(e.value) + following) == Some(Cut(0, |Render(e.value)| - 1, e.which))
  {
    var buf := Render(e.value) + following;
    var p := ps[e.which];
    assert buf[0..|p|] == p;
    assert Matches(buf, 0, ps[e.which]);
    var f := Found(0, e.which);
    assert IsEarliest(ps, buf, f);
    EarliestUnique(ps, buf, f, Earliest(ps, buf).value);
    ObjectEnd(e.value, following);
  }

  lemma EmptySettled(ps: seq<Bytes>)
    requires Shaped(ps)
    ensures NextEvent(ps, []).None?
  {
  }

  /** A buffer of whole events is consumed to the last byte, each event handled
      once and in order. */
  lemma {:induction false} DrainEvents<S>(ps: seq<Bytes>, handle: (S, nat, Bytes) -> S, got: S, events: seq<Event>)
    requires Shaped(ps) && AllValid(ps, events)
    ensures Drain(ps, handle, State(got, Texts(events))) == State(HandleAll(handle, got, events), [])
    decreases |events|
  {
    if events == [] {
      EmptySettled(ps);
    } else {
      var text := Render(events[0].value);
      var following := Texts(events[1..]);
      FirstEvent(ps, events[0], following);
      assert (text + following)[0..|text|] == text;
      assert (text + following)[|text|..] == following;
      DrainEvents(ps, handle, handle(got, events[0].which, text), events[1..]);
    }
  }
}
