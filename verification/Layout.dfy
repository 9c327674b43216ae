/** Items laid out in order: each becomes one entry or none, and some take the
    next number of a supply. Where an entry stands is told by counting. */
module Layout {
  import opened Text
  import opened Models

  function One(counts: bool): nat {
    if counts then 1 else 0
  }

  /** How many of the first k items satisfy p. */
  function Count<T(!new)>(p: T -> bool, items: seq<T>, k: nat): nat
    requires k <= |items|
  {
    if k == 0 then 0 else Count(p, items, k - 1) + One(p(items[k - 1]))
  }

  /** What each item becomes, with the number of fresh ids taken before it. */
  function LaidOut<T(!new), P>(become: (T, nat) -> seq<P>, takes: T -> bool, items: seq<T>, used: nat): seq<P>
    decreases |items|
  {
    if items == [] then []
    else become(items[0], used) + LaidOut(become, takes, items[1..], used + One(takes(items[0])))
  }

  lemma {:induction false} CountFront<T(!new)>(p: T -> bool, items: seq<T>, k: nat)
    requires 1 <= k <= |items|
    ensures Count(p, items, k) == One(p(items[0])) + Count(p, items[1..], k - 1)
    decreases k
  {
    if k > 1 {
      CountFront(p, items, k - 1);
    }
  }

  ghost predicate OneEach<T(!new), P>(become: (T, nat) -> seq<P>, places: T -> bool) {
    forall item, used :: |become(item, used)| == One(places(item))
  }

  lemma {:induction false} LaidOutCount<T(!new), P>(become: (T, nat) -> seq<P>, places: T -> bool, takes: T -> bool, items: seq<T>, used: nat)
    requires OneEach(become, places)
    ensures |LaidOut(become, takes, items, used)| == Count(places, items, |items|)
    decreases |items|
  {
    if items != [] {
      var next := used + One(takes(items[0]));
      LaidOutCount(become, places, takes, items[1..], next);
      CountFront(places, items, |items|);
    }
  }

  predicate Stands<P(==)>(parts: seq<P>, at: nat, part: P) {
    at < |parts| && parts[at] == part
  }

  lemma StandsBehind<P>(first: seq<P>, more: seq<P>, at: nat, part: P)
    requires Stands(more, at, part)
    ensures Stands(first + more, |first| + at, part)
  {
  }

  lemma {:induction false} LaidOutAt<T(!new), P>(become: (T, nat) -> seq<P>, places: T -> bool, takes: T -> bool, items: seq<T>, used: nat,
                                                 k: nat, item: T, nth: nat, part: P)
    requires OneEach(become, places) && k < |items| && items[k] == item && nth == used + Count(takes, items, k)
    requires become(item, nth) == [part]
    ensures Stands(LaidOut(become, takes, items, used), Count(places, items, k), part)
    decreases |items|
  {
    var next := used + One(takes(items[0]));
    var first, more := become(items[0], used), LaidOut(become, takes, items[1..], next);
    if k > 0 {
      CountFront(takes, items, k);
      CountFront(places, items, k);
      LaidOutAt(become, places, takes, items[1..], next, k - 1, item, nth, part);
      StandsBehind(first, more, Count(places, items[1..], k - 1), part);
    }
  }

  lemma LaidOutCons<T(!new), P>(become: (T, nat) -> seq<P>, takes: T -> bool, items: seq<T>, used: nat, next: nat, rest: seq<P>)
    requires items != [] && next == used + One(takes(items[0])) && rest == LaidOut(become, takes, items[1..], next)
    ensures LaidOut(become, takes, items, used) == become(items[0], used) + rest
  {
  }

  // ---------- tool calls ----------

  function HasName(): ToolCall -> bool {
    (call: ToolCall) => !Blank(call.name)
  }

  function LacksID(): ToolCall -> bool {
    (call: ToolCall) => !Blank(call.name) && Blank(call.id)
  }
}
