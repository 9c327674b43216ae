/** Accounts, their health, and the changes the store makes to one account. */
module Accounts {
  import opened Text

  datatype Health = Healthy | CooldownQuota | CooldownTransient | DisabledDurable | BannedHealth

  /** Quota status, and the reset times of the quota buckets. */
  datatype Quota = Quota(status: string, resets: seq<int>)

  datatype Account = Account(
    id: string, provider: string, enabled: bool, banned: bool, health: Health, cooldownUntil: int,
    consecutiveFailures: nat, quota: Quota, requestCount: int, errorCount: int, lastUsed: int,
    promptTokens: int, completionTokens: int, totalTokens: int)

  datatype Tokens = Tokens(prompt: int, completion: int, total: int)

  function Latest(resets: seq<int>, from: int): int
    decreases |resets|
  {
    if resets == [] then from else Latest(resets[1..], if resets[0] > from then resets[0] else from)
  }

  /** QuotaResetAt. */
  function QuotaResetAt(q: Quota): int {
    Latest(q.resets, 0)
  }

  /** accountAvailabilityState. */
  function Availability(a: Account, now: int): Health {
    if a.banned || a.health == BannedHealth then BannedHealth
    else if !a.enabled || a.health == DisabledDurable then DisabledDurable
    else if a.cooldownUntil > now then (if a.health == CooldownQuota then CooldownQuota else CooldownTransient)
    else if QuotaResetAt(a.quota) > now && a.quota.status == "exhausted" then CooldownQuota
    else Healthy
  }

  predicate Ready(a: Account, now: int) {
    Availability(a, now) == Healthy
  }

  /** An account that is ready stays ready as time goes on. */
  lemma ReadyStays(a: Account, now: int, later: int)
    requires Ready(a, now) && now <= later
    ensures Ready(a, later)
  {
  }

  // ---------- changes ----------

  /** The account update of markSuccess; the Codex service also repairs the
      quota status, the Kiro service does not. */
  function Succeeded(a: Account, tokens: Tokens, now: int, repairQuota: bool): Account {
    var repaired := repairQuota && a.quota.status in ["exhausted", "unknown", "degraded"];
    a.(requestCount := a.requestCount + 1, promptTokens := a.promptTokens + tokens.prompt,
       completionTokens := a.completionTokens + tokens.completion, totalTokens := a.totalTokens + tokens.total,
       lastUsed := now, cooldownUntil := 0, consecutiveFailures := 0, banned := false, health := Healthy,
       quota := if repaired then a.quota.(status := "healthy") else a.quota)
  }

  /** transientBackoffSeconds. */
  const BACKOFF: seq<int> := [10, 30, 60]

  /** TransientCooldown, in seconds. */
  function TransientCooldown(failures: int): int {
    if failures <= 0 then 0 else BACKOFF[if failures - 1 >= |BACKOFF| then |BACKOFF| - 1 else failures - 1]
  }

  lemma TransientCooldownGrows(m: int, n: int)
    requires 1 <= m <= n
    ensures 10 <= TransientCooldown(m) <= TransientCooldown(n) <= 60
  {
  }

  function FailedTransiently(a: Account, now: int): Account {
    a.(errorCount := a.errorCount + 1, consecutiveFailures := a.consecutiveFailures + 1,
       cooldownUntil := now + TransientCooldown(a.consecutiveFailures + 1), health := CooldownTransient,
       quota := if Blank(a.quota.status) then a.quota.(status := "degraded") else a.quota.(status := TrimSpace(a.quota.status)))
  }

  function NeedsLogin(a: Account, until: int): Account {
    a.(errorCount := a.errorCount + 1, cooldownUntil := until, health := CooldownTransient, quota := Quota("unknown", []))
  }

  function QuotaExhausted(a: Account, until: int): Account {
    a.(errorCount := a.errorCount + 1, cooldownUntil := until, health := CooldownQuota, quota := Quota("exhausted", [until]))
  }

  /** MarkAccountBanned and MarkAccountDurablyDisabled. */
  function Banned(a: Account): Account {
    a.(enabled := false, banned := true, health := BannedHealth, cooldownUntil := 0, consecutiveFailures := 0)
  }

  function Disabled(a: Account): Account {
    a.(enabled := false, health := DisabledDurable, cooldownUntil := 0, consecutiveFailures := 0)
  }

  /** MarkAccountTransientCooldown, MarkAccountQuotaCooldown and
      MarkAccountReloginRequired, as the Kiro service uses them. */
  function CoolingTransient(a: Account, until: int): Account {
    a.(banned := false, health := CooldownTransient, cooldownUntil := until)
  }

  function CoolingQuota(a: Account, until: int): Account {
    a.(banned := false, health := CooldownQuota, cooldownUntil := until)
  }

  function ReloginRequired(a: Account, now: int): Account {
    a.(health := CooldownTransient, cooldownUntil := now + 30, quota := Quota("unknown", []))
  }

  predicate Usable(a: Account) {
    a.enabled && !a.banned && a.health != BannedHealth && a.health != DisabledDurable
  }

  /** Each change keeps the account out of the pool for as long as it says: a ban or
      a disabling until somebody steps in, a cooldown until it lapses. */
  lemma OutUntil(a: Account, now: int, until: int, t: int)
    requires Usable(a) && 0 <= t
    ensures Availability(Banned(a), t) == BannedHealth && Availability(Disabled(a), t) == DisabledDurable
    ensures Availability(NeedsLogin(a, until), t) == if t < until then CooldownTransient else Healthy
    ensures Availability(QuotaExhausted(a, until), t) == if t < until then CooldownQuota else Healthy
    ensures t < now + TransientCooldown(a.consecutiveFailures + 1) ==> Availability(FailedTransiently(a, now), t) == CooldownTransient
    ensures t >= now + TransientCooldown(a.consecutiveFailures + 1) && QuotaResetAt(a.quota) <= t ==> Ready(FailedTransiently(a, now), t)
  {
    var resets := [until];
    assert resets[1..] == [];
    assert Latest(resets, 0) == Latest([], if until > 0 then until else 0);
  }

  /** And what it counts: a cooldown one more error, a transient one also one more in
      a row, a ban or a disabling neither. No request and no token is counted. */
  lemma FailuresCount(a: Account, now: int, until: int)
    ensures var failed := [FailedTransiently(a, now), NeedsLogin(a, until), QuotaExhausted(a, until)];
            forall k :: 0 <= k < 3 ==> failed[k].errorCount == a.errorCount + 1 && SameUse(a, failed[k]) && failed[k].enabled == a.enabled
    ensures forall b :: b in [Banned(a), Disabled(a)] ==>
              b.errorCount == a.errorCount && SameUse(a, b) && !b.enabled && b.cooldownUntil == 0 && b.consecutiveFailures == 0
    ensures FailedTransiently(a, now).consecutiveFailures == a.consecutiveFailures + 1
    ensures FailedTransiently(a, now).quota == Quota(if Blank(a.quota.status) then "degraded" else TrimSpace(a.quota.status), a.quota.resets)
    ensures NeedsLogin(a, until).quota == Quota("unknown", []) && QuotaExhausted(a, until).quota == Quota("exhausted", [until])
    ensures [NeedsLogin(a, until).consecutiveFailures, QuotaExhausted(a, until).consecutiveFailures] == [a.consecutiveFailures, a.consecutiveFailures]
  {
  }

  /** A success counts one request and its tokens, ends the cooldown and the failures
      in a row, and may repair a quota status that was lost on the way. */
  lemma SuccessCounts(a: Account, tokens: Tokens, now: int, repairQuota: bool)
    ensures var b := Succeeded(a, tokens, now, repairQuota);
            && b.requestCount == a.requestCount + 1 && b.errorCount == a.errorCount && b.lastUsed == now
            && b.promptTokens == a.promptTokens + tokens.prompt && b.completionTokens == a.completionTokens + tokens.completion
            && b.totalTokens == a.totalTokens + tokens.total && b.consecutiveFailures == 0 && b.enabled == a.enabled
            && (repairQuota && a.quota.status in ["exhausted", "unknown", "degraded"] ==> b.quota == Quota("healthy", a.quota.resets))
            && (!repairQuota || a.quota.status !in ["exhausted", "unknown", "degraded"] ==> b.quota == a.quota)
  {
  }

  predicate SameUse(a: Account, b: Account) {
    && b.id == a.id && b.provider == a.provider && b.requestCount == a.requestCount && b.lastUsed == a.lastUsed
    && b.promptTokens == a.promptTokens && b.completionTokens == a.completionTokens && b.totalTokens == a.totalTokens
  }

  /** A success makes it ready at once, unless an exhausted quota is left unrepaired. */
  lemma ReadyAfterSuccess(a: Account, tokens: Tokens, now: int, repairQuota: bool, t: int)
    requires a.enabled && 0 <= t
    ensures repairQuota || QuotaResetAt(a.quota) <= t || a.quota.status != "exhausted" ==> Ready(Succeeded(a, tokens, now, repairQuota), t)
  {
  }

  /** The first account with the id is changed; nothing happens without one. */
  function Update(accounts: seq<Account>, id: string, change: Account -> Account): seq<Account> {
    if accounts == [] then []
    else if accounts[0].id == id then [change(accounts[0])] + accounts[1..]
    else [accounts[0]] + Update(accounts[1..], id, change)
  }

  function IndexOf(accounts: seq<Account>, id: string): int {
    if accounts == [] then -1
    else if accounts[0].id == id then 0
    else
      var rest := IndexOf(accounts[1..], id);
      if rest == -1 then -1 else rest + 1
  }

  ghost predicate DistinctIds(accounts: seq<Account>) {
    forall i, j :: 0 <= i < j < |accounts| ==> accounts[i].id != accounts[j].id
  }

  lemma {:induction false} IndexOfProps(accounts: seq<Account>, id: string)
    ensures var i := IndexOf(accounts, id);
            (i == -1 <==> forall k :: 0 <= k < |accounts| ==> accounts[k].id != id) &&
            (i != -1 ==> 0 <= i < |accounts| && accounts[i].id == id && forall k :: 0 <= k < i ==> accounts[k].id != id)
    decreases |accounts|
  {
    if accounts != [] && accounts[0].id != id {
      IndexOfProps(accounts[1..], id);
      assert forall k :: 0 < k < |accounts| ==> accounts[k] == accounts[1..][k - 1];
      assert forall k :: 0 <= k < |accounts[1..]| ==> accounts[1..][k] == accounts[k + 1];
    }
  }

  /** UpdateAccount touches one position and no other. */
  lemma {:induction false} UpdateAt(accounts: seq<Account>, id: string, change: Account -> Account)
    ensures var i := IndexOf(accounts, id);
            Update(accounts, id, change) == if 0 <= i < |accounts| then accounts[i := change(accounts[i])] else accounts
    decreases |accounts|
  {
    if accounts == [] {
    } else if accounts[0].id == id {
      assert [change(accounts[0])] + accounts[1..] == accounts[0 := change(accounts[0])];
    } else {
      var rest := accounts[1..];
      var i := IndexOf(rest, id);
      UpdateAt(rest, id, change);
      IndexOfProps(rest, id);
      assert [accounts[0]] + rest == accounts;
      if i != -1 {
        assert [accounts[0]] + rest[i := change(rest[i])] == accounts[i + 1 := change(accounts[i + 1])];
      }
    }
  }

  lemma UpdateNothing(accounts: seq<Account>, id: string)
    ensures Update(accounts, id, a => a) == accounts
  {
    UpdateAt(accounts, id, a => a);
  }

  lemma UpdateSame(accounts: seq<Account>, id: string, f: Account -> Account, g: Account -> Account)
    requires forall a :: f(a) == g(a)
    ensures Update(accounts, id, f) == Update(accounts, id, g)
  {
    UpdateAt(accounts, id, f);
    UpdateAt(accounts, id, g);
  }

  // ---------- the account with an id ----------

  predicate Found(accounts: seq<Account>, id: string) {
    0 <= IndexOf(accounts, id) < |accounts|
  }

  function Called(accounts: seq<Account>, id: string): Account
    requires Found(accounts, id)
  {
    accounts[IndexOf(accounts, id)]
  }

  function With(accounts: seq<Account>, id: string, a: Account): seq<Account>
    requires Found(accounts, id)
  {
    accounts[IndexOf(accounts, id) := a]
  }

  lemma FoundIs(accounts: seq<Account>, id: string)
    requires IndexOf(accounts, id) != -1
    ensures Found(accounts, id)
  {
    IndexOfProps(accounts, id);
  }

  /** When an account is ready: nobody has to step in, its cooldown has lapsed, and
      an exhausted quota has been reset in all its buckets. */
  lemma ReadyMeans(a: Account, now: int)
    requires 0 <= now
    ensures Ready(a, now) <==> Usable(a) && a.cooldownUntil <= now &&
                               (a.quota.status == "exhausted" ==> forall i :: 0 <= i < |a.quota.resets| ==> a.quota.resets[i] <= now)
  {
    LatestIs(a.quota.resets, 0, now);
  }

  lemma {:induction false} LatestIs(resets: seq<int>, from: int, now: int)
    ensures Latest(resets, from) <= now <==> from <= now && forall i :: 0 <= i < |resets| ==> resets[i] <= now
    decreases |resets|
  {
    if resets != [] {
      LatestIs(resets[1..], if resets[0] > from then resets[0] else from, now);
      assert forall i :: 0 < i < |resets| ==> resets[i] == resets[1..][i - 1];
    }
  }
}
