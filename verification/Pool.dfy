/** The account pool: rotation, filter and stable sort, and what they promise
    about who is picked first. */
module Pool {
  import opened Text
  import opened Accounts

  datatype Mode = CacheFirst | Balance | Performance

  const UINT64 := 0x1_0000_0000_0000_0000

  // ---------- sorting keys ----------

  /** Both orders are lexicographic on three numbers. */
  datatype Key = Key(first: int, second: int, third: int)

  predicate Below(a: Key, b: Key) {
    a.first < b.first || (a.first == b.first && (a.second < b.second || (a.second == b.second && a.third < b.third)))
  }

  function CacheKey(a: Account): Key { Key(-a.lastUsed, a.errorCount, -a.requestCount) }
  function BalanceKey(a: Account): Key { Key(a.requestCount, a.errorCount, a.lastUsed) }

  predicate CacheFirstLess(l: Account, r: Account) {
    if l.lastUsed != r.lastUsed then l.lastUsed > r.lastUsed
    else if l.errorCount != r.errorCount then l.errorCount < r.errorCount
    else if l.requestCount != r.requestCount then l.requestCount > r.requestCount
    else false
  }

  predicate BalanceLess(l: Account, r: Account) {
    if l.requestCount != r.requestCount then l.requestCount < r.requestCount
    else if l.errorCount != r.errorCount then l.errorCount < r.errorCount
    else if l.lastUsed != r.lastUsed then l.lastUsed < r.lastUsed
    else false
  }

  /** The comparison chains of the source are orders on keys, so sorting is by
      key and ties are exactly equal keys. */
  lemma LessIsBelow(l: Account, r: Account)
    ensures CacheFirstLess(l, r) <==> Below(CacheKey(l), CacheKey(r))
    ensures BalanceLess(l, r) <==> Below(BalanceKey(l), BalanceKey(r))
  {
  }

  // ---------- stable sorting ----------

  /** Insert behind every element that is not above. */
  function Insert(key: Account -> Key, sorted: seq<Account>, x: Account): seq<Account> {
    if sorted == [] then [x]
    else
      var n := |sorted| - 1;
      if Below(key(x), key(sorted[n])) then Insert(key, sorted[..n], x) + [sorted[n]] else sorted + [x]
  }

  /** sort.SliceStable. */
  function StableSort(key: Account -> Key, s: seq<Account>): seq<Account> {
    if s == [] then [] else Insert(key, StableSort(key, s[..|s| - 1]), s[|s| - 1])
  }

  predicate SortedBy(key: Account -> Key, s: seq<Account>) {
    forall i, j :: 0 <= i < j < |s| ==> !Below(key(s[j]), key(s[i]))
  }

  /** The elements with one key, in order. */
  function WithKey(key: Account -> Key, k: Key, s: seq<Account>): seq<Account> {
    if s == [] then []
    else WithKey(key, k, s[..|s| - 1]) + if key(s[|s| - 1]) == k then [s[|s| - 1]] else []
  }

  lemma WithKeyLast(key: Account -> Key, k: Key, s: seq<Account>, x: Account)
    ensures WithKey(key, k, s + [x]) == WithKey(key, k, s) + if key(x) == k then [x] else []
  {
    assert (s + [x])[..|s|] == s;
  }

  lemma {:induction false} InsertAdds(key: Account -> Key, sorted: seq<Account>, x: Account)
    ensures multiset(Insert(key, sorted, x)) == multiset(sorted) + multiset{x}
    decreases |sorted|
  {
    if sorted != [] {
      InsertAdds(key, sorted[..|sorted| - 1], x);
      assert sorted == sorted[..|sorted| - 1] + [sorted[|sorted| - 1]];
    }
  }

  lemma {:induction false} InsertKeeps(key: Account -> Key, sorted: seq<Account>, x: Account, k: Key)
    requires SortedBy(key, sorted)
    ensures WithKey(key, k, Insert(key, sorted, x)) == WithKey(key, k, sorted) + if key(x) == k then [x] else []
    decreases |sorted|
  {
    if sorted == [] {
      WithKeyLast(key, k, [], x);
      assert Insert(key, [], x) == [] + [x];
    } else if Below(key(x), key(sorted[|sorted| - 1])) {
      var front, last := sorted[..|sorted| - 1], sorted[|sorted| - 1];
      InsertKeeps(key, front, x, k);
      WithKeyLast(key, k, Insert(key, front, x), last);
      if key(last) == k && key(x) == k {
        assert false;
      }
    } else {
      WithKeyLast(key, k, sorted, x);
    }
  }

  lemma {:induction false} InsertOrders(key: Account -> Key, sorted: seq<Account>, x: Account)
    requires SortedBy(key, sorted)
    ensures SortedBy(key, Insert(key, sorted, x))
    decreases |sorted|
  {
    if sorted == [] {
    } else if Below(key(x), key(sorted[|sorted| - 1])) {
      var front, last := sorted[..|sorted| - 1], sorted[|sorted| - 1];
      assert sorted == front + [last];
      InsertOrders(key, front, x);
      InsertAdds(key, front, x);
      InsertSorted(key, front, x, last);
    } else {
      AppendSorted(key, sorted, x);
    }
  }

  lemma AppendSorted(key: Account -> Key, sorted: seq<Account>, x: Account)
    requires SortedBy(key, sorted) && sorted != [] && !Below(key(x), key(sorted[|sorted| - 1]))
    ensures SortedBy(key, sorted + [x])
  {
    forall i | 0 <= i < |sorted| ensures !Below(key(x), key(sorted[i])) {
      assert i < |sorted| - 1 ==> !Below(key(sorted[|sorted| - 1]), key(sorted[i]));
    }
  }

  lemma InsertSorted(key: Account -> Key, front: seq<Account>, x: Account, last: Account)
    requires SortedBy(key, front + [last]) && Below(key(x), key(last))
    requires SortedBy(key, Insert(key, front, x)) && multiset(Insert(key, front, x)) == multiset(front) + multiset{x}
    ensures SortedBy(key, Insert(key, front, x) + [last])
  {
    var r := Insert(key, front, x);
    forall i | 0 <= i < |r| ensures !Below(key(last), key(r[i])) {
      assert r[i] in multiset(r);
      if r[i] != x {
        assert r[i] in front;
        var j :| 0 <= j < |front| && front[j] == r[i];
        assert (front + [last])[j] == front[j] && (front + [last])[|front|] == last;
      }
    }
  }

  /** Sorting permutes, orders, and keeps the order among equal keys. */
  lemma {:induction false} SortProps(key: Account -> Key, s: seq<Account>, k: Key)
    ensures var r := StableSort(key, s);
            SortedBy(key, r) && multiset(r) == multiset(s) && WithKey(key, k, r) == WithKey(key, k, s)
    decreases |s|
  {
    if s != [] {
      var front, last := s[..|s| - 1], s[|s| - 1];
      assert s == front + [last];
      SortProps(key, front, k);
      InsertAdds(key, StableSort(key, front), last);
      InsertKeeps(key, StableSort(key, front), last, k);
      InsertOrders(key, StableSort(key, front), last);
    }
  }

  /** There is only one way to sort stably: an ordered list that keeps the order
      among equal keys is the result. */
  lemma StableSortUnique(key: Account -> Key, s: seq<Account>, r: seq<Account>)
    requires SortedBy(key, r)
    requires forall k :: WithKey(key, k, r) == WithKey(key, k, s)
    ensures r == StableSort(key, s)
  {
    forall k ensures WithKey(key, k, StableSort(key, s)) == WithKey(key, k, r) {
      SortProps(key, s, k);
    }
    SortProps(key, s, Key(0, 0, 0));
    SortedEqual(key, r, StableSort(key, s));
  }

  lemma {:induction false} SortedEqual(key: Account -> Key, a: seq<Account>, b: seq<Account>)
    requires SortedBy(key, a) && SortedBy(key, b)
    requires forall k :: WithKey(key, k, a) == WithKey(key, k, b)
    ensures a == b
    decreases |a|
  {
    if a == [] || b == [] {
      NoKeys(key, a, b);
    } else {
      var front, last := a[..|a| - 1], a[|a| - 1];
      assert WithKey(key, key(last), a) == WithKey(key, key(last), front) + [last];
      var front', last' := b[..|b| - 1], b[|b| - 1];
      assert WithKey(key, key(last'), b) == WithKey(key, key(last'), front') + [last'];
      SomeKey(key, key(last'), a);
      SomeKey(key, key(last), b);
      assert key(last) == key(last');
      LastsEqual(WithKey(key, key(last), front), WithKey(key, key(last), front'), last, last');
      assert a == front + [last] && b == front' + [last];
      forall k ensures WithKey(key, k, front) == WithKey(key, k, front') {
        FrontsAgree(key, k, front, front', last);
      }
      SortedEqual(key, front, front');
      assert a == front + [last] && b == front' + [last'];
    }
  }

  lemma FrontsAgree(key: Account -> Key, k: Key, a: seq<Account>, b: seq<Account>, last: Account)
    requires WithKey(key, k, a + [last]) == WithKey(key, k, b + [last])
    ensures WithKey(key, k, a) == WithKey(key, k, b)
  {
    WithKeyLast(key, k, a, last);
    WithKeyLast(key, k, b, last);
    var x, y := WithKey(key, k, a), WithKey(key, k, b);
    if key(last) == k {
      LastsEqual(x, y, last, last);
    } else {
      NothingAdded(x);
      NothingAdded(y);
    }
  }

  lemma NothingAdded<T>(x: seq<T>)
    ensures x + [] == x
  {
  }

  lemma NoKeys(key: Account -> Key, a: seq<Account>, b: seq<Account>)
    requires a == [] || b == []
    requires forall k :: WithKey(key, k, a) == WithKey(key, k, b)
    ensures a == b
  {
    if a != [] {
      HasKey(key, a);
    } else if b != [] {
      HasKey(key, b);
    }
  }

  lemma HasKey(key: Account -> Key, s: seq<Account>)
    requires s != []
    ensures WithKey(key, key(s[|s| - 1]), s) != []
  {
  }

  lemma LastsEqual<T>(a: seq<T>, b: seq<T>, x: T, y: T)
    requires a + [x] == b + [y]
    ensures x == y && a == b
  {
    assert |a + [x]| == |b + [y]|;
    assert a == (a + [x])[..|a|] && b == (b + [y])[..|b|];
    assert (a + [x])[|a|] == x;
  }

  lemma {:induction false} SomeKey(key: Account -> Key, k: Key, s: seq<Account>)
    requires WithKey(key, k, s) != []
    ensures exists i :: 0 <= i < |s| && key(s[i]) == k
    decreases |s|
  {
    if key(s[|s| - 1]) != k {
      SomeKey(key, k, s[..|s| - 1]);
      var i :| 0 <= i < |s| - 1 && key(s[..|s| - 1][i]) == k;
      assert key(s[i]) == k;
    }
  }

  // ---------- the available list ----------

  /** The loop's filter. */
  predicate Eligible(provider: string, now: int, a: Account) {
    (provider == "" || a.provider == provider) && Ready(a, now)
  }

  function Filter(provider: string, now: int, s: seq<Account>): seq<Account> {
    if s == [] then []
    else Filter(provider, now, s[..|s| - 1]) + if Eligible(provider, now, s[|s| - 1]) then [s[|s| - 1]] else []
  }

  function Rotate(s: seq<Account>, start: nat): seq<Account>
    requires start <= |s|
  {
    s[start..] + s[..start]
  }

  function SortFor(mode: Mode, s: seq<Account>): seq<Account> {
    match mode
    case CacheFirst => StableSort(CacheKey, s)
    case Balance => StableSort(BalanceKey, s)
    case Performance => s
  }

  /** The provider name as the pool compares it. */
  function Target(provider: string): string {
    Lower(TrimSpace(provider))
  }

  /** Case and surrounding space of the name make no difference. */
  lemma TargetMeans(provider: string)
    ensures Target(TrimSpace(provider)) == Target(provider) && |Target(provider)| == |TrimSpace(provider)|
    ensures forall i :: 0 <= i < |Target(provider)| ==>
              var (c, d) := (Target(provider)[i], TrimSpace(provider)[i]);
              !('A' <= c <= 'Z') && (c == d || ('A' <= d <= 'Z' && c as int == d as int + 32))
  {
    TrimSpaceTrimmed(provider);
  }

  /** availableAccountsByProvider after the counter has become `current`. */
  function Available(accounts: seq<Account>, current: nat, provider: string, mode: Mode, now: int): seq<Account> {
    if accounts == [] then []
    else SortFor(mode, Filter(provider, now, Rotate(accounts, current % |accounts|)))
  }

  class AccountPool {
    var current: nat

    constructor ()
      ensures current == 0
    {
      current := 0;
    }

    /** An empty store leaves the counter alone; otherwise it is bumped, wrapping
        at 2^64, and chooses where the rotation starts. */
    method AvailableAccounts(accounts: seq<Account>, provider: string, mode: Mode, now: int) returns (available: seq<Account>)
      requires current < UINT64
      modifies this
      ensures current == if accounts == [] then old(current) else (old(current) + 1) % UINT64
      ensures available == Available(accounts, current, Target(provider), mode, now)
    {
      if accounts == [] {
        return [];
      }
      current := (current + 1) % UINT64;
      available := Collect(accounts, current % |accounts|, Target(provider), now);
      available := SortFor(mode, available);
    }
  }

  /** The loop over the rotated list. */
  method Collect(accounts: seq<Account>, start: nat, provider: string, now: int) returns (available: seq<Account>)
    requires start < |accounts|
    ensures available == Filter(provider, now, Rotate(accounts, start))
  {
    var i := 0;
    available := [];
    while i < |accounts|
      invariant 0 <= i <= |accounts|
      invariant available == Filter(provider, now, Rotate(accounts, start)[..i])
    {
      RotatedAt(accounts, start, i);
      var account := accounts[(start + i) % |accounts|];
      FilterNext(provider, now, Rotate(accounts, start), i);
      if (provider == "" || account.provider == provider) && Availability(account, now) == Healthy {
        available := available + [account];
      }
      i := i + 1;
    }
    assert Rotate(accounts, start)[..i] == Rotate(accounts, start);
  }

  lemma FilterNext(provider: string, now: int, s: seq<Account>, i: nat)
    requires i < |s|
    ensures Filter(provider, now, s[..i + 1]) == Filter(provider, now, s[..i]) + if Eligible(provider, now, s[i]) then [s[i]] else []
  {
    assert s[..i + 1][..i] == s[..i];
  }

  lemma RotatedAt(accounts: seq<Account>, start: nat, i: nat)
    requires start < |accounts| && i < |accounts|
    ensures Rotate(accounts, start)[i] == accounts[(start + i) % |accounts|]
  {
    ModBack(start + i, |accounts|);
  }

  lemma ModBack(x: nat, n: nat)
    requires 0 < n && x < 2 * n
    ensures x % n == if x < n then x else x - n
  {
  }

  // ---------- the list is the ready accounts ----------

  lemma {:induction false} FilterMembers(provider: string, now: int, s: seq<Account>, a: Account)
    ensures multiset(Filter(provider, now, s))[a] == if Eligible(provider, now, a) then multiset(s)[a] else 0
    decreases |s|
  {
    if s != [] {
      FilterMembers(provider, now, s[..|s| - 1], a);
      assert s == s[..|s| - 1] + [s[|s| - 1]];
    }
  }

  lemma RotateKeeps(s: seq<Account>, start: nat)
    requires start <= |s|
    ensures multiset(Rotate(s, start)) == multiset(s)
  {
    assert s == s[..start] + s[start..];
  }

  /** Exactly the ready accounts of the provider, each as often as it is stored. */
  lemma AvailableExactly(accounts: seq<Account>, current: nat, provider: string, mode: Mode, now: int, a: Account)
    ensures multiset(Available(accounts, current, provider, mode, now))[a]
            == if Eligible(provider, now, a) then multiset(accounts)[a] else 0
  {
    if accounts != [] {
      var rotated := Rotate(accounts, current % |accounts|);
      RotateKeeps(accounts, current % |accounts|);
      FilterMembers(provider, now, rotated, a);
      SortProps(CacheKey, Filter(provider, now, rotated), Key(0, 0, 0));
      SortProps(BalanceKey, Filter(provider, now, rotated), Key(0, 0, 0));
    }
  }

  lemma {:induction false} OnceStored(s: seq<Account>, a: Account)
    requires DistinctIds(s)
    ensures multiset(s)[a] <= 1
    decreases |s|
  {
    if s != [] {
      var front, last := s[..|s| - 1], s[|s| - 1];
      assert s == front + [last];
      OnceStored(front, a);
      assert last !in front;
    }
  }

  lemma TwoPlaces(s: seq<Account>, i: nat, j: nat)
    requires i < j < |s| && s[i] == s[j]
    ensures multiset(s)[s[i]] >= 2
  {
    assert s == s[..j] + [s[j]] + s[j + 1..];
    assert s[..j][i] == s[i];
    assert s[i] in multiset(s[..j]);
  }

  /** No account is listed twice. */
  lemma AvailableDistinct(accounts: seq<Account>, current: nat, provider: string, mode: Mode, now: int)
    requires DistinctIds(accounts)
    ensures DistinctIds(Available(accounts, current, provider, mode, now))
  {
    var available := Available(accounts, current, provider, mode, now);
    forall i, j | 0 <= i < j < |available| ensures available[i].id != available[j].id {
      AvailableExactly(accounts, current, provider, mode, now, available[i]);
      AvailableExactly(accounts, current, provider, mode, now, available[j]);
      assert available[i] in multiset(available) && available[j] in multiset(available);
      assert available[i] in multiset(accounts) && available[j] in multiset(accounts);
      if available[i].id == available[j].id {
        SameAccount(accounts, available[i], available[j]);
        TwoPlaces(available, i, j);
        OnceStored(accounts, available[i]);
      }
    }
  }

  lemma SameAccount(accounts: seq<Account>, a: Account, b: Account)
    requires DistinctIds(accounts) && a in accounts && b in accounts && a.id == b.id
    ensures a == b
  {
  }

  /** Ordered by the mode's comparison, and among equal keys in rotation order. */
  lemma AvailableOrdered(accounts: seq<Account>, current: nat, provider: string, now: int, k: Key)
    requires accounts != []
    ensures var ready := Filter(provider, now, Rotate(accounts, current % |accounts|));
            var cache := Available(accounts, current, provider, CacheFirst, now);
            var balance := Available(accounts, current, provider, Balance, now);
            && (forall i, j :: 0 <= i < j < |cache| ==> !CacheFirstLess(cache[j], cache[i]))
            && (forall i, j :: 0 <= i < j < |balance| ==> !BalanceLess(balance[j], balance[i]))
            && WithKey(CacheKey, k, cache) == WithKey(CacheKey, k, ready)
            && WithKey(BalanceKey, k, balance) == WithKey(BalanceKey, k, ready)
  {
    var ready := Filter(provider, now, Rotate(accounts, current % |accounts|));
    SortProps(CacheKey, ready, k);
    SortProps(BalanceKey, ready, k);
  }

  // ---------- the snapshot ----------

  datatype Snapshot = Snapshot(total: nat, ready: nat, cooldownQuota: nat, cooldownTransient: nat, disabled: nat, banned: nat)

  function Count(provider: string, now: int, s: seq<Account>): Snapshot {
    if s == [] then Snapshot(0, 0, 0, 0, 0, 0)
    else
      var c := Count(provider, now, s[..|s| - 1]);
      var a := s[|s| - 1];
      if provider != "" && a.provider != provider then c
      else
        var d := c.(total := c.total + 1);
        match Availability(a, now)
        case Healthy => d.(ready := d.ready + 1)
        case CooldownQuota => d.(cooldownQuota := d.cooldownQuota + 1)
        case CooldownTransient => d.(cooldownTransient := d.cooldownTransient + 1)
        case DisabledDurable => d.(disabled := d.disabled + 1)
        case BannedHealth => d.(banned := d.banned + 1)
  }

  /** AvailabilitySnapshot. */
  method AvailabilitySnapshot(accounts: seq<Account>, provider: string, now: int) returns (c: Snapshot)
    ensures c == Count(Target(provider), now, accounts)
  {
    var target := Target(provider);
    c := Snapshot(0, 0, 0, 0, 0, 0);
    var i := 0;
    while i < |accounts|
      invariant 0 <= i <= |accounts|
      invariant c == Count(target, now, accounts[..i])
    {
      var a := accounts[i];
      assert accounts[..i + 1][..i] == accounts[..i];
      i := i + 1;
      if target != "" && a.provider != target {
        continue;
      }
      c := c.(total := c.total + 1);
      match Availability(a, now) {
        case Healthy => c := c.(ready := c.ready + 1);
        case CooldownQuota => c := c.(cooldownQuota := c.cooldownQuota + 1);
        case CooldownTransient => c := c.(cooldownTransient := c.cooldownTransient + 1);
        case DisabledDurable => c := c.(disabled := c.disabled + 1);
        case BannedHealth => c := c.(banned := c.banned + 1);
      }
    }
    assert accounts[..i] == accounts;
  }

  lemma {:induction false} CountSums(provider: string, now: int, s: seq<Account>)
    ensures var c := Count(provider, now, s);
            c.total == c.ready + c.cooldownQuota + c.cooldownTransient + c.disabled + c.banned &&
            c.ready == |Filter(provider, now, s)|
    decreases |s|
  {
    if s != [] {
      CountSums(provider, now, s[..|s| - 1]);
    }
  }

  lemma SameSizes<T>(a: seq<T>, b: seq<T>)
    requires multiset(a) == multiset(b)
    ensures |a| == |b|
  {
    assert |multiset(a)| == |a| && |multiset(b)| == |b|;
  }

  /** The five counters add up, and the list is as long as the ready count. */
  lemma SnapshotAgrees(accounts: seq<Account>, current: nat, provider: string, mode: Mode, now: int)
    ensures var c := Count(provider, now, accounts);
            c.total == c.ready + c.cooldownQuota + c.cooldownTransient + c.disabled + c.banned &&
            c.ready == |Available(accounts, current, provider, mode, now)|
  {
    CountSums(provider, now, accounts);
    var available := Available(accounts, current, provider, mode, now);
    forall a ensures multiset(available)[a] == multiset(Filter(provider, now, accounts))[a] {
      AvailableExactly(accounts, current, provider, mode, now, a);
      FilterMembers(provider, now, accounts, a);
    }
    assert multiset(available) == multiset(Filter(provider, now, accounts));
    SameSizes(available, Filter(provider, now, accounts));
  }

  // ---------- who comes first in performance mode ----------

  /** The account a call puts first when it reads `counter`. */
  function First(accounts: seq<Account>, counter: nat, provider: string, now: int): Option<Account> {
    var available := Available(accounts, counter, provider, Performance, now);
    if available == [] then None else Some(available[0])
  }

  /** Calls `counter` to `counter + calls - 1` put pairwise different accounts first. */
  ghost predicate FairWindow(accounts: seq<Account>, counter: nat, calls: nat, provider: string, now: int) {
    forall x, y :: counter <= x < y < counter + calls ==> First(accounts, x, provider, now) != First(accounts, y, provider, now)
  }

  lemma {:induction false} FilterAppend(provider: string, now: int, a: seq<Account>, b: seq<Account>)
    ensures Filter(provider, now, a + b) == Filter(provider, now, a) + Filter(provider, now, b)
    decreases |b|
  {
    if b == [] {
      assert a + b == a;
    } else {
      FilterAppend(provider, now, a, b[..|b| - 1]);
      assert (a + b)[..|a + b| - 1] == a + b[..|b| - 1];
    }
  }

  lemma FilterOne(provider: string, now: int, a: Account, s: seq<Account>)
    ensures Filter(provider, now, [a] + s) == (if Eligible(provider, now, a) then [a] else []) + Filter(provider, now, s)
  {
    FilterAppend(provider, now, [a], s);
    assert [a][..0] == [];
    assert Filter(provider, now, [a]) == if Eligible(provider, now, a) then [a] else [];
  }

  function Next(i: nat, n: nat): nat {
    if i + 1 == n then 0 else i + 1
  }

  /** A call that starts at a ready account puts it first; one that starts just
      before a ready account, at one that is not ready, also puts it first. */
  lemma FirstAt(accounts: seq<Account>, counter: nat, provider: string, now: int, s: nat)
    requires s < |accounts| && counter % |accounts| == s
    ensures Eligible(provider, now, accounts[s]) ==> First(accounts, counter, provider, now) == Some(accounts[s])
    ensures !Eligible(provider, now, accounts[s]) && Eligible(provider, now, accounts[Next(s, |accounts|)])
            ==> First(accounts, counter, provider, now) == Some(accounts[Next(s, |accounts|)])
  {
    var here, rest := accounts[s], accounts[s + 1..] + accounts[..s];
    assert Rotate(accounts, s) == [here] + rest;
    FilterOne(provider, now, here, rest);
    if !Eligible(provider, now, here) && Eligible(provider, now, accounts[Next(s, |accounts|)]) {
      FilterFirst(provider, now, accounts[Next(s, |accounts|)], rest);
    }
  }

  lemma FilterFirst(provider: string, now: int, a: Account, s: seq<Account>)
    requires s != [] && s[0] == a && Eligible(provider, now, a)
    ensures Filter(provider, now, s) != [] && Filter(provider, now, s)[0] == a
  {
    assert s == [a] + s[1..];
    FilterOne(provider, now, a, s[1..]);
  }

  /** Somewhere in the circle a ready account follows one that is not ready. */
  lemma GapExists(accounts: seq<Account>, provider: string, now: int, p: nat, q: nat) returns (i: nat)
    requires p < |accounts| && !Eligible(provider, now, accounts[p])
    requires q < |accounts| && Eligible(provider, now, accounts[q])
    ensures i < |accounts| && !Eligible(provider, now, accounts[i]) && Eligible(provider, now, accounts[Next(i, |accounts|)])
  {
    var n := |accounts|;
    i := p;
    while !Eligible(provider, now, accounts[Next(i, n)])
      invariant i < n && !Eligible(provider, now, accounts[i])
      decreases if i < q then q - i else q + n - i
    {
      i := Next(i, n);
    }
  }

  lemma {:induction false} FilterCount(provider: string, now: int, s: seq<Account>)
    ensures |Filter(provider, now, s)| <= |s|
    ensures |Filter(provider, now, s)| == |s| <==> forall a :: a in s ==> Eligible(provider, now, a)
    ensures |Filter(provider, now, s)| == 0 <==> forall a :: a in s ==> !Eligible(provider, now, a)
    decreases |s|
  {
    if s != [] {
      var front, last := s[..|s| - 1], s[|s| - 1];
      FilterCount(provider, now, front);
      assert forall a :: a in s <==> a in front || a == last;
    }
  }

  lemma FilterAll(provider: string, now: int, s: seq<Account>)
    ensures |Filter(provider, now, s)| <= |s|
    ensures |Filter(provider, now, s)| == |s| <==> forall i :: 0 <= i < |s| ==> Eligible(provider, now, s[i])
    ensures |Filter(provider, now, s)| > 0 <==> exists i :: 0 <= i < |s| && Eligible(provider, now, s[i])
  {
    FilterCount(provider, now, s);
  }

  lemma MulAtLeast(d: int, n: nat)
    ensures d >= 1 ==> d * n >= n
    ensures d <= -1 ==> d * n <= 0 - n
  {
    if d >= 1 {
      assert d * n == (d - 1) * n + n;
    } else if d <= -1 {
      assert d * n == (d + 1) * n - n;
    }
  }

  lemma DivisionIs(x: nat, n: nat, q: nat, r: nat)
    requires r < n && x == q * n + r
    ensures x / n == q && x % n == r
  {
    var d := x / n - q;
    assert (q + d) * n == q * n + d * n;
    assert x == (q + d) * n + x % n;
    MulAtLeast(d, n);
  }

  lemma DistinctStarts(x: nat, y: nat, n: nat)
    requires x < y < x + n
    ensures x % n != y % n
  {
    var d := y / n - x / n;
    assert y == (x / n + d) * n + y % n && (x / n + d) * n == (x / n) * n + d * n;
    assert x == (x / n) * n + x % n;
    MulAtLeast(d, n);
  }

  /** When every stored account is ready, no two calls of a window agree. */
  lemma AllReadyIsFair(accounts: seq<Account>, provider: string, now: int, counter: nat)
    requires DistinctIds(accounts)
    requires forall i :: 0 <= i < |accounts| ==> Eligible(provider, now, accounts[i])
    ensures FairWindow(accounts, counter, |accounts|, provider, now)
  {
    forall x, y | counter <= x < y < counter + |accounts|
      ensures First(accounts, x, provider, now) != First(accounts, y, provider, now)
    {
      FirstAt(accounts, x, provider, now, x % |accounts|);
      FirstAt(accounts, y, provider, now, y % |accounts|);
      DistinctStarts(x, y, |accounts|);
    }
  }

  /** After a gap the same account is first twice in a row. */
  lemma GapIsUnfair(accounts: seq<Account>, provider: string, now: int, i: nat, calls: nat)
    requires i < |accounts| && calls > 1
    requires !Eligible(provider, now, accounts[i]) && Eligible(provider, now, accounts[Next(i, |accounts|)])
    ensures !FairWindow(accounts, i, calls, provider, now)
  {
    var n := |accounts|;
    DivisionIs(i, n, 0, i);
    DivisionIs(i + 1, n, if i + 1 == n then 1 else 0, Next(i, n));
    FirstAt(accounts, i, provider, now, i);
    FirstAt(accounts, i + 1, provider, now, Next(i, |accounts|));
    assert First(accounts, i, provider, now) == First(accounts, i + 1, provider, now);
  }

  ghost predicate FirstOnly(accounts: seq<Account>, counter: nat, calls: nat, provider: string, now: int, a: Account, x: nat) {
    && counter <= x < counter + calls && First(accounts, x, provider, now) == Some(a)
    && forall y :: counter <= y < counter + calls && First(accounts, y, provider, now) == Some(a) ==> y == x
  }

  /** Each ready account is first in exactly one of the calls. */
  ghost predicate EachOnce(accounts: seq<Account>, counter: nat, calls: nat, provider: string, now: int) {
    forall q :: 0 <= q < |accounts| && Eligible(provider, now, accounts[q]) ==>
      exists x: nat :: FirstOnly(accounts, counter, calls, provider, now, accounts[q], x)
  }

  function ReadySet(provider: string, now: int, s: seq<Account>): set<Option<Account>> {
    set q | 0 <= q < |s| && Eligible(provider, now, s[q]) :: Some(s[q])
  }

  lemma {:induction false} ReadyFew(provider: string, now: int, s: seq<Account>)
    ensures |ReadySet(provider, now, s)| <= |Filter(provider, now, s)|
    decreases |s|
  {
    if s != [] {
      var front, last := s[..|s| - 1], s[|s| - 1];
      ReadyFew(provider, now, front);
      assert forall q :: 0 <= q < |front| ==> front[q] == s[q];
      assert ReadySet(provider, now, s) == ReadySet(provider, now, front) + if Eligible(provider, now, last) then {Some(last)} else {};
    }
  }

  /** While somebody is ready, a ready account comes first. */
  lemma FirstIsReady(accounts: seq<Account>, counter: nat, provider: string, now: int, q: nat)
    requires q < |accounts| && Eligible(provider, now, accounts[q])
    ensures First(accounts, counter, provider, now) in ReadySet(provider, now, accounts)
  {
    var available := Available(accounts, counter, provider, Performance, now);
    AvailableExactly(accounts, counter, provider, Performance, now, accounts[q]);
    assert accounts[q] in multiset(accounts) && accounts[q] in multiset(available);
    AvailableExactly(accounts, counter, provider, Performance, now, available[0]);
    assert available[0] in multiset(available) && available[0] in multiset(accounts);
    var k :| 0 <= k < |accounts| && accounts[k] == available[0];
  }

  function Firsts(accounts: seq<Account>, counter: nat, calls: nat, provider: string, now: int): (s: seq<Option<Account>>)
    ensures |s| == calls && forall i :: 0 <= i < calls ==> s[i] == First(accounts, counter + i, provider, now)
  {
    seq(calls, i requires 0 <= i < calls => First(accounts, counter + i, provider, now))
  }

  lemma FirstsReady(accounts: seq<Account>, counter: nat, calls: nat, provider: string, now: int, q: nat)
    requires q < |accounts| && Eligible(provider, now, accounts[q]) && FairWindow(accounts, counter, calls, provider, now)
    ensures var firsts := Firsts(accounts, counter, calls, provider, now);
            Distinct(firsts) && forall y :: y in firsts ==> y in ReadySet(provider, now, accounts)
  {
    var firsts := Firsts(accounts, counter, calls, provider, now);
    forall i | 0 <= i < calls ensures firsts[i] in ReadySet(provider, now, accounts) {
      FirstIsReady(accounts, counter + i, provider, now, q);
    }
    forall i, j | 0 <= i < j < calls ensures firsts[i] != firsts[j] {
      assert counter + i < counter + j;
    }
  }

  /** In a fair window of as many calls as ready accounts none is left out. */
  lemma FairReaches(accounts: seq<Account>, counter: nat, provider: string, now: int, q: nat)
    requires q < |accounts| && Eligible(provider, now, accounts[q])
    requires FairWindow(accounts, counter, |Filter(provider, now, accounts)|, provider, now)
    ensures exists x :: counter <= x < counter + |Filter(provider, now, accounts)| && First(accounts, x, provider, now) == Some(accounts[q])
  {
    var calls := |Filter(provider, now, accounts)|;
    var firsts := Firsts(accounts, counter, calls, provider, now);
    ReadyFew(provider, now, accounts);
    FirstsReady(accounts, counter, calls, provider, now, q);
    var i := Reached(firsts, ReadySet(provider, now, accounts), Some(accounts[q]));
    assert First(accounts, counter + i, provider, now) == Some(accounts[q]);
  }

  /** Over as many calls as ready accounts, pairwise different firsts are each
      ready account once. */
  lemma FairIsEachOnce(accounts: seq<Account>, counter: nat, provider: string, now: int)
    ensures var ready := |Filter(provider, now, accounts)|;
            FairWindow(accounts, counter, ready, provider, now) <==> EachOnce(accounts, counter, ready, provider, now)
  {
    var ready := |Filter(provider, now, accounts)|;
    FilterCount(provider, now, accounts);
    if FairWindow(accounts, counter, ready, provider, now) {
      forall q | 0 <= q < |accounts| && Eligible(provider, now, accounts[q])
        ensures exists x: nat :: FirstOnly(accounts, counter, ready, provider, now, accounts[q], x)
      {
        FairReaches(accounts, counter, provider, now, q);
        var x :| counter <= x < counter + ready && First(accounts, x, provider, now) == Some(accounts[q]);
        assert FirstOnly(accounts, counter, ready, provider, now, accounts[q], x);
      }
    }
    if EachOnce(accounts, counter, ready, provider, now) && ready > 0 {
      var p :| 0 <= p < |accounts| && Eligible(provider, now, accounts[p]);
      forall x, y | counter <= x < y < counter + ready
        ensures First(accounts, x, provider, now) != First(accounts, y, provider, now)
      {
        FirstIsReady(accounts, x, provider, now, p);
        var q :| 0 <= q < |accounts| && Eligible(provider, now, accounts[q]) && Some(accounts[q]) == First(accounts, x, provider, now);
      }
    }
  }

  /** With as many calls as ready accounts, every window of consecutive calls
      that the counter does not wrap in puts each of them first exactly once if
      and only if at most one account is ready or all stored ones are. */
  lemma PerformanceFairness(accounts: seq<Account>, provider: string, now: int)
    requires DistinctIds(accounts) && |accounts| + |accounts| <= UINT64
    ensures var ready := |Filter(provider, now, accounts)|;
            (forall counter: nat :: counter + ready <= UINT64 ==> EachOnce(accounts, counter, ready, provider, now))
            <==> ready <= 1 || ready == |accounts|
  {
    var ready := |Filter(provider, now, accounts)|;
    FilterAll(provider, now, accounts);
    forall counter: nat
      ensures FairWindow(accounts, counter, ready, provider, now) <==> EachOnce(accounts, counter, ready, provider, now)
    {
      FairIsEachOnce(accounts, counter, provider, now);
    }
    if ready == |accounts| {
      forall counter: nat ensures FairWindow(accounts, counter, ready, provider, now) {
        AllReadyIsFair(accounts, provider, now, counter);
      }
    } else if ready > 1 {
      var p :| 0 <= p < |accounts| && !Eligible(provider, now, accounts[p]);
      var q :| 0 <= q < |accounts| && Eligible(provider, now, accounts[q]);
      var i := GapExists(accounts, provider, now, p, q);
      GapIsUnfair(accounts, provider, now, i, ready);
      assert i + ready <= UINT64;
    }
  }

  /** Among as many consecutive calls as there are stored accounts, every ready
      account is first at least once. */
  lemma EveryoneComesFirst(accounts: seq<Account>, counter: nat, provider: string, now: int, q: nat)
    requires q < |accounts| && Eligible(provider, now, accounts[q])
    ensures exists x :: counter <= x < counter + |accounts| && First(accounts, x, provider, now) == Some(accounts[q])
  {
    var n := |accounts|;
    var turns, r := counter / n, counter % n;
    var x := counter + if r <= q then q - r else q + n - r;
    assert counter == turns * n + r && (turns + 1) * n == turns * n + n;
    DivisionIs(x, n, if r <= q then turns else turns + 1, q);
    FirstAt(accounts, x, provider, now, q);
  }
}
