/** Balance scheduling: picking the least used account and serving a request
    with it keeps the request counts together. */
module BalanceScheduling {
  import opened Text
  import opened Accounts
  import opened Pool

  /** One request: the counter and clock its pick reads, and how it ends. */
  datatype Pick = Pick(counter: nat, now: int, finished: int, tokens: Tokens, repairQuota: bool)

  function Serve(accounts: seq<Account>, provider: string, pick: Pick): seq<Account> {
    var available := Available(accounts, pick.counter, provider, Balance, pick.now);
    if available == [] then accounts
    else Update(accounts, available[0].id, a => Succeeded(a, pick.tokens, pick.finished, pick.repairQuota))
  }

  function ServeAll(accounts: seq<Account>, provider: string, picks: seq<Pick>): seq<Account> {
    if picks == [] then accounts
    else Serve(ServeAll(accounts, provider, picks[..|picks| - 1]), provider, picks[|picks| - 1])
  }

  predicate Mine(provider: string, a: Account) {
    provider == "" || a.provider == provider
  }

  predicate AllReady(accounts: seq<Account>, provider: string, now: int) {
    forall i :: 0 <= i < |accounts| && Mine(provider, accounts[i]) ==> Ready(accounts[i], now)
  }

  /** The request counts of the provider's accounts. */
  function Counts(provider: string, accounts: seq<Account>): seq<int> {
    if accounts == [] then []
    else (if Mine(provider, accounts[0]) then [accounts[0].requestCount] else []) + Counts(provider, accounts[1..])
  }

  // ---------- numbers ----------

  ghost predicate Spread(c: seq<int>, d: int) {
    forall i, j :: 0 <= i < |c| && 0 <= j < |c| ==> c[i] <= c[j] + d
  }

  ghost predicate Least(c: seq<int>, p: nat) {
    p < |c| && forall j :: 0 <= j < |c| ==> c[p] <= c[j]
  }

  /** A least number has been raised by one. */
  ghost predicate Bumped(c: seq<int>, c': seq<int>) {
    exists p: nat :: Least(c, p) && c' == c[p := c[p] + 1]
  }

  function Sum(c: seq<int>): int {
    if c == [] then 0 else c[0] + Sum(c[1..])
  }

  lemma {:induction false} BumpSum(c: seq<int>, p: nat)
    requires p < |c|
    ensures Sum(c[p := c[p] + 1]) == Sum(c) + 1
    decreases |c|
  {
    if p == 0 {
      assert c[0 := c[0] + 1][1..] == c[1..];
    } else {
      BumpSum(c[1..], p - 1);
      assert c[p := c[p] + 1][1..] == c[1..][p - 1 := c[p] + 1];
    }
  }

  /** Raising a least count adds one and never widens a spread of one or more. */
  lemma BumpSpread(c: seq<int>, c': seq<int>, d: int)
    requires Bumped(c, c') && Spread(c, d) && d >= 1
    ensures Spread(c', d) && |c'| == |c| && Sum(c') == Sum(c) + 1
  {
    var p: nat :| Least(c, p) && c' == c[p := c[p] + 1];
    BumpSum(c, p);
  }

  lemma {:induction false} SumAtLeast(c: seq<int>, lo: int, i: nat)
    requires i < |c| && forall j :: 0 <= j < |c| ==> lo <= c[j]
    ensures Sum(c) >= |c| * lo + (c[i] - lo)
    decreases |c|
  {
    assert |c| * lo == (|c| - 1) * lo + lo;
    if |c| == 1 {
      assert Sum(c[1..]) == 0;
    } else {
      SumAtLeast(c[1..], lo, if i == 0 then 0 else i - 1);
      assert c[1..][if i == 0 then 0 else i - 1] >= lo;
    }
  }

  lemma {:induction false} SumAtMost(c: seq<int>, hi: int, i: nat)
    requires i < |c| && forall j :: 0 <= j < |c| ==> c[j] <= hi
    ensures Sum(c) <= |c| * hi - (hi - c[i])
    decreases |c|
  {
    assert |c| * hi == (|c| - 1) * hi + hi;
    if |c| == 1 {
      assert Sum(c[1..]) == 0;
    } else {
      SumAtMost(c[1..], hi, if i == 0 then 0 else i - 1);
      assert c[1..][if i == 0 then 0 else i - 1] <= hi;
    }
  }

  /** Numbers within one of each other are the floor or the ceiling of the mean. */
  lemma FloorOrCeiling(c: seq<int>, base: int, k: nat, i: nat)
    requires i < |c| && Spread(c, 1) && Sum(c) == |c| * base + k
    ensures c[i] == base + k / |c| || c[i] == base + (k + |c| - 1) / |c|
  {
    if j :| 0 <= j < |c| && c[j] < c[i] {
      SumAtLeast(c, c[i] - 1, i);
      SumAtMost(c, c[i], j);
      CeilingIs(k, |c|, base, c[i]);
    } else {
      SumAtLeast(c, c[i], i);
      SumAtMost(c, c[i] + 1, i);
      FloorIs(k, |c|, base, c[i]);
    }
  }

  lemma FloorIs(k: nat, n: nat, base: int, x: int)
    requires n > 0 && n * x <= n * base + k < n * (x + 1)
    ensures x == base + k / n
  {
    var q := k / n;
    assert k == q * n + k % n && q * n == n * q && n * (base + q) == n * base + n * q;
    var d := x - base - q;
    assert n * x == n * (base + q + d) == n * (base + q) + n * d && n * (x + 1) == n * x + n && n * d == d * n;
    MulAtLeast(d, n);
  }

  lemma CeilingIs(k: nat, n: nat, base: int, x: int)
    requires n > 0 && n * (x - 1) < n * base + k <= n * x
    ensures x == base + (k + n - 1) / n
  {
    assert n * (x - 1) == n * x - n && n * (x + 1) == n * x + n;
    FloorIs(k + n - 1, n, base, x);
  }

  /** `v` is `base` plus the floor or the ceiling of k / n. */
  predicate FairShare(v: int, base: int, k: nat, n: nat) {
    n > 0 && (v == base + k / n || v == base + (k + n - 1) / n)
  }

  // ---------- one pick ----------

  lemma {:induction false} CountsAppend(provider: string, a: seq<Account>, b: seq<Account>)
    ensures Counts(provider, a + b) == Counts(provider, a) + Counts(provider, b)
    decreases |a|
  {
    if a == [] {
      assert a + b == b;
    } else {
      CountsAppend(provider, a[1..], b);
      assert (a + b)[1..] == a[1..] + b;
      Assoc(if Mine(provider, a[0]) then [a[0].requestCount] else [], Counts(provider, a[1..]), Counts(provider, b));
    }
  }

  lemma CountsAt(provider: string, accounts: seq<Account>, i: nat, a: Account) returns (p: nat)
    requires i < |accounts| && Mine(provider, accounts[i]) && Mine(provider, a)
    ensures p < |Counts(provider, accounts)| && Counts(provider, accounts)[p] == accounts[i].requestCount
    ensures Counts(provider, accounts[i := a]) == Counts(provider, accounts)[p := a.requestCount]
  {
    var front, rest := accounts[..i], accounts[i + 1..];
    p := |Counts(provider, front)|;
    assert accounts == front + ([accounts[i]] + rest);
    assert accounts[i := a] == front + ([a] + rest);
    CountsAppend(provider, front, [accounts[i]] + rest);
    CountsAppend(provider, front, [a] + rest);
    CountsFirst(provider, accounts[i], rest);
    CountsFirst(provider, a, rest);
    Replaced(Counts(provider, front), accounts[i].requestCount, a.requestCount, Counts(provider, rest));
  }

  lemma CountsFirst(provider: string, a: Account, rest: seq<Account>)
    requires Mine(provider, a)
    ensures Counts(provider, [a] + rest) == [a.requestCount] + Counts(provider, rest)
  {
    assert ([a] + rest)[1..] == rest;
  }

  lemma Replaced(front: seq<int>, x: int, y: int, rest: seq<int>)
    ensures var s := front + ([x] + rest); s[|front|] == x && front + ([y] + rest) == s[|front| := y]
  {
  }

  lemma {:induction false} CountsLeast(provider: string, accounts: seq<Account>, least: int)
    requires forall i :: 0 <= i < |accounts| && Mine(provider, accounts[i]) ==> least <= accounts[i].requestCount
    ensures forall j :: 0 <= j < |Counts(provider, accounts)| ==> least <= Counts(provider, accounts)[j]
    decreases |accounts|
  {
    if accounts != [] {
      forall i | 0 <= i < |accounts[1..]| && Mine(provider, accounts[1..][i]) ensures least <= accounts[1..][i].requestCount {
        assert accounts[1..][i] == accounts[i + 1];
      }
      CountsLeast(provider, accounts[1..], least);
    }
  }

  lemma {:induction false} SomeMine(provider: string, accounts: seq<Account>) returns (i: nat)
    requires Counts(provider, accounts) != []
    ensures i < |accounts| && Mine(provider, accounts[i])
    decreases |accounts|
  {
    if Mine(provider, accounts[0]) {
      i := 0;
    } else {
      var rest := SomeMine(provider, accounts[1..]);
      i := rest + 1;
    }
  }

  /** The account in front has the least count of all ready accounts. */
  lemma HeadIsLeast(accounts: seq<Account>, provider: string, pick: Pick, a: Account)
    requires a in accounts && Eligible(provider, pick.now, a)
    ensures var available := Available(accounts, pick.counter, provider, Balance, pick.now);
            available != [] && available[0].requestCount <= a.requestCount
  {
    var available := Available(accounts, pick.counter, provider, Balance, pick.now);
    AvailableExactly(accounts, pick.counter, provider, Balance, pick.now, a);
    assert a in multiset(accounts) && a in multiset(available);
    var j :| 0 <= j < |available| && available[j] == a;
    AvailableOrdered(accounts, pick.counter, provider, pick.now, Key(0, 0, 0));
    if j > 0 {
      assert !BalanceLess(available[j], available[0]);
    }
  }

  /** The account in front is a stored one, and it is eligible. */
  lemma HeadIsStored(accounts: seq<Account>, provider: string, pick: Pick) returns (i: nat)
    requires DistinctIds(accounts) && Available(accounts, pick.counter, provider, Balance, pick.now) != []
    ensures var head := Available(accounts, pick.counter, provider, Balance, pick.now)[0];
            i < |accounts| && accounts[i] == head && IndexOf(accounts, head.id) == i && Eligible(provider, pick.now, head)
  {
    var available := Available(accounts, pick.counter, provider, Balance, pick.now);
    var head := available[0];
    AvailableExactly(accounts, pick.counter, provider, Balance, pick.now, head);
    assert head in multiset(available);
    assert head in multiset(accounts);
    i :| 0 <= i < |accounts| && accounts[i] == head;
    IndexOfProps(accounts, head.id);
  }

  /** Serving one request changes one account, a least used one. */
  lemma ServeOne(accounts: seq<Account>, provider: string, pick: Pick, m: nat) returns (i: nat)
    requires DistinctIds(accounts) && m < |accounts| && Eligible(provider, pick.now, accounts[m])
    ensures i < |accounts| && Eligible(provider, pick.now, accounts[i])
    ensures Serve(accounts, provider, pick)
            == accounts[i := Succeeded(accounts[i], pick.tokens, pick.finished, pick.repairQuota)]
    ensures forall j :: 0 <= j < |accounts| && Eligible(provider, pick.now, accounts[j])
                        ==> accounts[i].requestCount <= accounts[j].requestCount
  {
    HeadIsLeast(accounts, provider, pick, accounts[m]);
    i := HeadIsStored(accounts, provider, pick);
    UpdateAt(accounts, accounts[i].id, a => Succeeded(a, pick.tokens, pick.finished, pick.repairQuota));
    forall j | 0 <= j < |accounts| && Eligible(provider, pick.now, accounts[j])
      ensures accounts[i].requestCount <= accounts[j].requestCount
    {
      HeadIsLeast(accounts, provider, pick, accounts[j]);
    }
  }

  /** An account that is served stays ready. */
  lemma ServedReady(a: Account, tokens: Tokens, finished: int, repairQuota: bool, now: int, later: int)
    requires Ready(a, now) && 0 <= now <= later
    ensures Ready(Succeeded(a, tokens, finished, repairQuota), later)
  {
  }

  lemma ReplaceKeepsReady(accounts: seq<Account>, provider: string, i: nat, a: Account, now: int, later: int)
    requires i < |accounts| && a.id == accounts[i].id && Ready(a, later)
    requires DistinctIds(accounts) && AllReady(accounts, provider, now) && now <= later
    ensures DistinctIds(accounts[i := a]) && AllReady(accounts[i := a], provider, later)
  {
    var replaced := accounts[i := a];
    forall j | 0 <= j < |replaced| && Mine(provider, replaced[j]) ensures Ready(replaced[j], later) {
      if j != i {
        ReadyStays(accounts[j], now, later);
      }
    }
  }

  /** One step of a run: a least count rises by one, everyone stays ready. */
  ghost predicate Stepped(provider: string, before: seq<Account>, after: seq<Account>, later: int) {
    && DistinctIds(after) && AllReady(after, provider, later)
    && Bumped(Counts(provider, before), Counts(provider, after))
  }

  lemma ServeSteps(accounts: seq<Account>, provider: string, pick: Pick, later: int)
    requires DistinctIds(accounts) && AllReady(accounts, provider, pick.now) && Counts(provider, accounts) != []
    requires 0 <= pick.now <= later
    ensures Stepped(provider, accounts, Serve(accounts, provider, pick), later)
  {
    var m := SomeMine(provider, accounts);
    var i := ServeOne(accounts, provider, pick, m);
    var served := Succeeded(accounts[i], pick.tokens, pick.finished, pick.repairQuota);
    StepByReplacing(accounts, provider, i, served, pick, later);
  }

  lemma StepByReplacing(accounts: seq<Account>, provider: string, i: nat, served: Account, pick: Pick, later: int)
    requires i < |accounts| && DistinctIds(accounts) && AllReady(accounts, provider, pick.now) && 0 <= pick.now <= later
    requires Eligible(provider, pick.now, accounts[i])
    requires served == Succeeded(accounts[i], pick.tokens, pick.finished, pick.repairQuota)
    requires forall j :: 0 <= j < |accounts| && Eligible(provider, pick.now, accounts[j])
                         ==> accounts[i].requestCount <= accounts[j].requestCount
    ensures Stepped(provider, accounts, accounts[i := served], later)
  {
    ServedReady(accounts[i], pick.tokens, pick.finished, pick.repairQuota, pick.now, later);
    ReplaceKeepsReady(accounts, provider, i, served, pick.now, later);
    CountsLeast(provider, accounts, accounts[i].requestCount);
    var p := CountsAt(provider, accounts, i, served);
    assert Least(Counts(provider, accounts), p);
  }

  // ---------- every run ----------

  ghost predicate Chronological(picks: seq<Pick>) {
    forall i, j :: 0 <= i <= j < |picks| ==> 0 <= picks[i].now <= picks[j].now
  }

  /** From any start the spread never exceeds the larger of the first spread and one. */
  lemma {:induction false} SpreadStays(accounts: seq<Account>, provider: string, picks: seq<Pick>, d: int, now: int)
    requires DistinctIds(accounts) && Counts(provider, accounts) != [] && Spread(Counts(provider, accounts), d) && d >= 1
    requires Chronological(picks) && AllReady(accounts, provider, if picks == [] then now else picks[0].now)
    requires picks != [] ==> picks[|picks| - 1].now <= now
    ensures var served := ServeAll(accounts, provider, picks);
            && Spread(Counts(provider, served), d)
            && |Counts(provider, served)| == |Counts(provider, accounts)|
            && Sum(Counts(provider, served)) == Sum(Counts(provider, accounts)) + |picks|
            && DistinctIds(served) && AllReady(served, provider, now)
    decreases |picks|
  {
    if picks != [] {
      var front, last := picks[..|picks| - 1], picks[|picks| - 1];
      assert Chronological(front);
      SpreadStays(accounts, provider, front, d, last.now);
      var before := ServeAll(accounts, provider, front);
      var after := Serve(before, provider, last);
      ServeSteps(before, provider, last, now);
      BumpSpread(Counts(provider, before), Counts(provider, after), d);
    }
  }

  lemma {:induction false} EqualSum(c: seq<int>, base: int)
    requires forall i :: 0 <= i < |c| ==> c[i] == base
    ensures Sum(c) == |c| * base
    decreases |c|
  {
    if c != [] {
      EqualSum(c[1..], base);
      assert |c| * base == (|c| - 1) * base + base;
    }
  }

  /** From equal counts, after k requests every account has served the floor or
      the ceiling of k divided by the number of accounts. */
  lemma BalancedShares(accounts: seq<Account>, provider: string, picks: seq<Pick>, base: int, i: nat)
    requires DistinctIds(accounts) && Chronological(picks) && picks != [] && AllReady(accounts, provider, picks[0].now)
    requires forall j :: 0 <= j < |Counts(provider, accounts)| ==> Counts(provider, accounts)[j] == base
    requires i < |Counts(provider, accounts)|
    ensures var served, n := Counts(provider, ServeAll(accounts, provider, picks)), |Counts(provider, accounts)|;
            |served| == n && FairShare(served[i], base, |picks|, n)
  {
    var counts, served := Counts(provider, accounts), ServeAll(accounts, provider, picks);
    SpreadStays(accounts, provider, picks, 1, picks[|picks| - 1].now);
    SharesOf(counts, Counts(provider, served), base, |picks|, i);
  }

  lemma SharesOf(c: seq<int>, c': seq<int>, base: int, k: nat, i: nat)
    requires forall j :: 0 <= j < |c| ==> c[j] == base
    requires |c'| == |c| && Spread(c', 1) && Sum(c') == Sum(c) + k && i < |c|
    ensures FairShare(c'[i], base, k, |c|)
  {
    EqualSum(c, base);
    FloorOrCeiling(c', base, k, i);
  }
}
