/** The store both providers and the proxy share: accounts and statistics, and
    the books that tie the two together. */
module Store {
  import opened Text
  import opened Accounts
  import opened Failures

  datatype Stats = Stats(total: int, success: int, failed: int, prompt: int, completion: int, totalTokens: int)

  /** What the accounts have served, added up. */
  datatype Tally = Tally(requests: int, prompt: int, completion: int, total: int)

  function Plus(t: Tally, u: Tally): Tally {
    Tally(t.requests + u.requests, t.prompt + u.prompt, t.completion + u.completion, t.total + u.total)
  }

  function Entry(a: Account): Tally {
    Tally(a.requestCount, a.promptTokens, a.completionTokens, a.totalTokens)
  }

  function Tallied(accounts: seq<Account>): Tally {
    if accounts == [] then Tally(0, 0, 0, 0) else Plus(Entry(accounts[0]), Tallied(accounts[1..]))
  }

  function Credit(tokens: Tokens): Tally {
    Tally(1, tokens.prompt, tokens.completion, tokens.total)
  }

  /** The statistics' own view of what was served. */
  function Served(s: Stats): Tally {
    Tally(s.success, s.prompt, s.completion, s.totalTokens)
  }

  // ---------- changes to one account ----------

  /** Everything the books and the pool's identity of an account depend on. */
  predicate SameEntry(a: Account, b: Account) {
    a.id == b.id && a.provider == b.provider && Entry(a) == Entry(b)
  }

  /** Only accounts called `id` changed, and their entries did not. */
  ghost predicate Touched(before: seq<Account>, after: seq<Account>, id: string) {
    |before| == |after| &&
    forall k :: 0 <= k < |before| ==> SameEntry(before[k], after[k]) && (before[k].id != id ==> after[k] == before[k])
  }

  /** Accounts that are not called `id` are as they were. */
  ghost predicate OnlyAt(before: seq<Account>, after: seq<Account>, id: string) {
    |before| == |after| && forall k :: 0 <= k < |before| && before[k].id != id ==> after[k] == before[k]
  }

  /** The accounts of other providers are as they were. */
  ghost predicate OnlyOf(before: seq<Account>, after: seq<Account>, provider: string) {
    |before| == |after| && forall k :: 0 <= k < |before| && before[k].provider != provider ==> after[k] == before[k]
  }

  lemma TouchedTwice(a: seq<Account>, b: seq<Account>, c: seq<Account>, id: string)
    requires Touched(a, b, id) && Touched(b, c, id)
    ensures Touched(a, c, id)
  {
  }

  lemma UpdateTouches(accounts: seq<Account>, id: string, change: Account -> Account)
    requires forall a :: SameEntry(a, change(a))
    ensures Touched(accounts, Update(accounts, id, change), id)
  {
    UpdateAt(accounts, id, change);
    IndexOfProps(accounts, id);
  }

  lemma {:induction false} TouchedTally(before: seq<Account>, after: seq<Account>, id: string)
    requires Touched(before, after, id)
    ensures Tallied(after) == Tallied(before)
    decreases |before|
  {
    if before != [] {
      assert SameEntry(before[0], after[0]);
      assert forall k :: 0 <= k < |before[1..]| ==> before[1..][k] == before[k + 1] && after[1..][k] == after[k + 1];
      TouchedTally(before[1..], after[1..], id);
    }
  }

  lemma TouchedFinds(before: seq<Account>, after: seq<Account>, id: string)
    requires Touched(before, after, id) && IndexOf(before, id) != -1
    ensures IndexOf(after, id) != -1
  {
    IndexOfProps(before, id);
    IndexOfProps(after, id);
    assert SameEntry(before[IndexOf(before, id)], after[IndexOf(before, id)]);
  }

  /** One account was credited with a served request, all the others are as they were. */
  lemma {:induction false} CreditedTally(before: seq<Account>, i: nat, tokens: Tokens, now: int, repairQuota: bool)
    requires i < |before|
    ensures Tallied(before[i := Succeeded(before[i], tokens, now, repairQuota)]) == Plus(Tallied(before), Credit(tokens))
    decreases |before|
  {
    var after := before[i := Succeeded(before[i], tokens, now, repairQuota)];
    if i == 0 {
      assert after[1..] == before[1..];
    } else {
      assert after[1..] == before[1..][i - 1 := Succeeded(before[i], tokens, now, repairQuota)];
      CreditedTally(before[1..], i - 1, tokens, now, repairQuota);
    }
  }

  /** How the accounts changed over one request that ended as `won` says. */
  ghost predicate Moved(before: seq<Account>, after: seq<Account>, won: Option<Tokens>) {
    && |before| == |after|
    && (forall k :: 0 <= k < |before| ==> before[k].id == after[k].id && before[k].provider == after[k].provider)
    && Tallied(after) == if won.Some? then Plus(Tallied(before), Credit(won.value)) else Tallied(before)
  }

  /** Every account has the entry it had, but the one called `id` has served one
      more request if `won` says so. */
  ghost predicate Credited(before: seq<Account>, after: seq<Account>, id: string, won: Option<Tokens>) {
    |before| == |after| &&
    forall k :: 0 <= k < |before| ==>
      before[k].id == after[k].id && before[k].provider == after[k].provider &&
      Entry(after[k]) == if won.Some? && before[k].id == id then Plus(Entry(before[k]), Credit(won.value)) else Entry(before[k])
  }

  lemma {:induction false} CreditedMoves(before: seq<Account>, after: seq<Account>, id: string, won: Option<Tokens>)
    requires DistinctIds(before) && Credited(before, after, id, won)
    requires won.Some? ==> exists k :: 0 <= k < |before| && before[k].id == id
    ensures Moved(before, after, won) && DistinctIds(after)
    decreases |before|
  {
    if before != [] {
      var rest, rest' := before[1..], after[1..];
      assert forall k :: 0 <= k < |rest| ==> rest[k] == before[k + 1] && rest'[k] == after[k + 1];
      if won.Some? && before[0].id == id {
        CreditedMoves(rest, rest', id, None);
      } else {
        if won.Some? {
          var k :| 0 <= k < |before| && before[k].id == id;
          assert rest[k - 1].id == id;
        }
        CreditedMoves(rest, rest', id, won);
      }
    }
  }

  lemma CreditedAfter(first: seq<Account>, before: seq<Account>, after: seq<Account>, id: string, won: Option<Tokens>)
    requires Credited(first, before, id, None) && Credited(before, after, id, won)
    ensures Credited(first, after, id, won)
  {
  }

  lemma SuccessCredits(accounts: seq<Account>, id: string, tokens: Tokens, now: int, repairQuota: bool)
    requires DistinctIds(accounts) && IndexOf(accounts, id) != -1
    ensures Credited(accounts, Update(accounts, id, a => Succeeded(a, tokens, now, repairQuota)), id, Some(tokens))
    ensures OnlyAt(accounts, Update(accounts, id, a => Succeeded(a, tokens, now, repairQuota)), id)
  {
    UpdateAt(accounts, id, a => Succeeded(a, tokens, now, repairQuota));
    IndexOfProps(accounts, id);
  }

  lemma SuccessMoves(accounts: seq<Account>, id: string, tokens: Tokens, now: int, repairQuota: bool)
    requires IndexOf(accounts, id) != -1
    ensures Moved(accounts, Update(accounts, id, a => Succeeded(a, tokens, now, repairQuota)), Some(tokens))
  {
    UpdateAt(accounts, id, a => Succeeded(a, tokens, now, repairQuota));
    IndexOfProps(accounts, id);
    CreditedTally(accounts, IndexOf(accounts, id), tokens, now, repairQuota);
  }

  /** The one entry a request makes in the statistics. */
  function Recorded(s: Stats, won: Option<Tokens>): Stats {
    match won
    case None => s.(total := s.total + 1, failed := s.failed + 1)
    case Some(t) => Stats(s.total + 1, s.success + 1, s.failed, s.prompt + t.prompt, s.completion + t.completion, s.totalTokens + t.total)
  }

  /** One request is entered in the books: once in the statistics, and with what
      it earned in the accounts. */
  ghost predicate Entered(before: seq<Account>, stats: Stats, after: seq<Account>, stats': Stats, won: Option<Tokens>) {
    stats' == Recorded(stats, won) && Moved(before, after, won) && DistinctIds(after)
  }

  lemma UntouchedEntered(first: seq<Account>, stats: Stats, accounts: seq<Account>)
    requires DistinctIds(accounts) && (first == accounts || Moved(first, accounts, None))
    ensures Entered(first, stats, accounts, Recorded(stats, None), None)
  {
  }

  /** What the client of a request gets. */
  datatype Answer = Success(tokens: Tokens) | Failure(status: int)

  function Winner(answer: Answer): Option<Tokens> {
    if answer.Success? then Some(answer.tokens) else None
  }

  /** What a token check or refresh does to the account's own record. */
  datatype AuthChange = AuthChange(enabled: bool, banned: bool, health: Health, cooldownUntil: int, failures: nat, quota: Quota)

  datatype AuthReply = AuthReply(change: Option<AuthChange>, refusal: Option<Signals>)

  function Authenticated(a: Account, c: AuthChange): Account {
    a.(enabled := c.enabled, banned := c.banned, health := c.health, cooldownUntil := c.cooldownUntil,
       consecutiveFailures := c.failures, quota := c.quota)
  }

  /** What the check of a token found decides whether the account is ready; its entry
      in the books stays. */
  lemma ReadyAfterCheck(a: Account, c: AuthChange, now: int)
    requires 0 <= now
    ensures SameEntry(a, Authenticated(a, c))
    ensures Ready(Authenticated(a, c), now)
            <==> c.enabled && !c.banned && c.health != BannedHealth && c.health != DisabledDurable && c.cooldownUntil <= now
                 && (c.quota.status == "exhausted" ==> forall i :: 0 <= i < |c.quota.resets| ==> c.quota.resets[i] <= now)
  {
    ReadyMeans(Authenticated(a, c), now);
  }

  /** The store's clock: reading i happens at `at(i)`. */
  class Clock {
    const at: nat -> int
    var readings: nat

    constructor (at: nat -> int)
      ensures this.at == at && readings == 0
    {
      this.at := at;
      readings := 0;
    }

    /** The time of the last reading. */
    function Last(): int
      reads this
    {
      if readings == 0 then 0 else at(readings - 1)
    }

    method Now() returns (t: int)
      modifies this
      ensures t == at(old(readings)) && readings == old(readings) + 1
    {
      t := at(readings);
      readings := readings + 1;
    }
  }

  class Manager {
    var accounts: seq<Account>
    var stats: Stats

    constructor (accounts: seq<Account>, stats: Stats)
      ensures this.accounts == accounts && this.stats == stats
    {
      this.accounts := accounts;
      this.stats := stats;
    }

    /** UpdateAccount changes the first account with the id. */
    method UpdateAccount(id: string, change: Account -> Account) returns (found: bool)
      modifies this`accounts
      ensures accounts == Update(old(accounts), id, change)
      ensures found <==> IndexOf(old(accounts), id) != -1
    {
      UpdateAt(accounts, id, change);
      IndexOfProps(accounts, id);
      var i := 0;
      while i < |accounts|
        invariant 0 <= i <= |accounts|
        invariant accounts == old(accounts)
        invariant forall k :: 0 <= k < i ==> accounts[k].id != id
      {
        if accounts[i].id == id {
          accounts := accounts[i := change(accounts[i])];
          return true;
        }
        i := i + 1;
      }
      found := false;
    }

    method UpdateStats(change: Stats -> Stats)
      modifies this`stats
      ensures stats == change(old(stats))
    {
      stats := change(stats);
    }

    /** recordRequestFailure, the same in the proxy and in both providers. */
    method RecordRequestFailure()
      modifies this`stats
      ensures stats == Recorded(old(stats), None)
    {
      UpdateStats((s: Stats) => s.(total := s.total + 1, failed := s.failed + 1));
    }

    /** markSuccess: one account and the statistics get the same credit. */
    method MarkSuccess(id: string, tokens: Tokens, now: int, repairQuota: bool)
      requires IndexOf(accounts, id) != -1
      modifies this
      ensures stats == Recorded(old(stats), Some(tokens))
      ensures accounts == Update(old(accounts), id, a => Succeeded(a, tokens, now, repairQuota))
      ensures Moved(old(accounts), accounts, Some(tokens))
    {
      SuccessMoves(accounts, id, tokens, now, repairQuota);
      var found := UpdateAccount(id, a => Succeeded(a, tokens, now, repairQuota));
      UpdateStats((s: Stats) => Stats(s.total + 1, s.success + 1, s.failed, s.prompt + tokens.prompt,
                             s.completion + tokens.completion, s.totalTokens + tokens.total));
    }
  }
}
