/** The Kiro service: one pass over the accounts the pool lists. */
module KiroService {
  import opened Text
  import opened Accounts
  import opened Failures
  import opened Store
  import Pool

  /** What an endpoint answers; a completion that cannot be read has no tokens. */
  datatype Reply =
    | TransportError(signals: Signals)
    | Answered(status: int, signals: Signals, parsed: Option<Tokens>)

  datatype End = Won(tokens: Tokens) | Lost(status: int, signals: Signals)

  const ENDPOINTS := 2

  predicate Answers(r: Reply, tokens: Tokens) {
    r.Answered? && 200 <= r.status < 300 && r.parsed == Some(tokens)
  }

  /** The status a failed reply leaves behind; a transport error and an
      unreadable completion leave the earlier one. */
  function StatusAfter(earlier: int, r: Reply): int {
    if r.Answered? && !(200 <= r.status < 300) then r.status else earlier
  }

  /** applyFailureDecision, on the account it names. */
  function AfterFailure(a: Account, d: Decision, now: int): Account {
    match d.class_
    case DurableDisabled => if d.ban then Banned(a) else Disabled(a)
    case AuthRefreshable => ReloginRequired(a, now)
    case QuotaCooldown => CoolingQuota(a, now + d.cooldown)
    case _ => CoolingTransient(a, now + TransientCooldown(1))
  }

  // ---------- a request as a function of the outside ----------

  /** What a request meets: replies, token checks and the clock, by how many there
      were before, and whether it can be encoded. */
  datatype World = World(upstream: nat -> Reply, auth: nat -> AuthReply, at: nat -> int, encodes: bool, badRequest: Signals)

  /** Where a request stands: the store, the counters, and the answer if there is one. */
  datatype Progress = Progress(accounts: seq<Account>, stats: Stats, sends: nat, checks: nat, readings: nat, won: Option<Tokens>)

  function Parsed(r: Reply): Option<Tokens> {
    if r.Answered? && 200 <= r.status < 300 then r.parsed else None
  }

  /** What asking the endpoints one after the other comes to, and how many were
      asked: the second only when the first fails, and a status seen earlier
      outlives a later transport error. */
  function Asked(w: World, s: nat): (End, nat) {
    if !w.encodes then (Lost(400, w.badRequest), 0)
    else if Parsed(w.upstream(s)).Some? then (Won(Parsed(w.upstream(s)).value), 1)
    else if Parsed(w.upstream(s + 1)).Some? then (Won(Parsed(w.upstream(s + 1)).value), 2)
    else (Lost(StatusAfter(StatusAfter(0, w.upstream(s)), w.upstream(s + 1)), w.upstream(s + 1).signals), 2)
  }

  function Charged(accounts: seq<Account>, id: string, d: Decision, now: int): seq<Account> {
    Update(accounts, id, a => AfterFailure(a, d, now))
  }

  function Checked(accounts: seq<Account>, id: string, change: Option<AuthChange>): seq<Account> {
    if change.None? then accounts else Update(accounts, id, a => Authenticated(a, change.value))
  }

  function Rewarded(accounts: seq<Account>, id: string, tokens: Tokens, now: int): seq<Account> {
    Update(accounts, id, a => Succeeded(a, tokens, now, false))
  }

  function Judged(end: End): Decision
    requires end.Lost?
  {
    if end.status == 0 then TRANSPORT else ClassifyHttp(end.status, end.signals)
  }

  function Charge(w: World, p: Progress, id: string, d: Decision): Progress {
    p.(accounts := Charged(p.accounts, id, d, w.at(p.readings)), readings := p.readings + 1)
  }

  /** A candidate whose token is good: failed or answered. */
  function Attempted(w: World, p: Progress, id: string): Progress {
    var (end, n) := Asked(w, p.sends);
    if end.Lost? then Charge(w, p.(sends := p.sends + n), id, Judged(end))
    else
      Progress(Rewarded(p.accounts, id, end.tokens, w.at(p.readings)), Recorded(p.stats, Some(end.tokens)), p.sends + n, p.checks,
               p.readings + 1, Some(end.tokens))
  }

  /** One candidate: refused, failed or answered. */
  function Candidate(w: World, p: Progress, id: string): Progress {
    var reply := w.auth(p.checks);
    var q := p.(accounts := Checked(p.accounts, id, reply.change), checks := p.checks + 1);
    if reply.refusal.Some? then Charge(w, q, id, ClassifyHttp(401, reply.refusal.value)) else Attempted(w, q, id)
  }

  /** One candidate after the other, up to the first that answers. */
  function RunCandidates(w: World, p: Progress, ids: seq<string>): Progress
    decreases |ids|
  {
    if ids == [] || p.won.Some? then p else RunCandidates(w, Candidate(w, p, ids[0]), ids[1..])
  }

  /** Candidates one after the other, whatever comes of them. */
  function AskAll(w: World, p: Progress, ids: seq<string>): Progress {
    if ids == [] then p else Candidate(w, AskAll(w, p, ids[..|ids| - 1]), ids[|ids| - 1])
  }

  ghost predicate Asks(w: World, p: Progress, ids: seq<string>, n: nat) {
    && n <= |ids| && RunCandidates(w, p, ids) == AskAll(w, p, ids[..n])
    && (forall k :: 0 <= k < n ==> AskAll(w, p, ids[..k]).won.None?)
    && (n == |ids| || RunCandidates(w, p, ids).won.Some?)
  }

  /** A run asks the first so many: none answered before the last of them, and if none
      did at all, there are no more. */
  lemma {:induction false} RunAsks(w: World, p: Progress, ids: seq<string>) returns (n: nat)
    ensures Asks(w, p, ids, n)
    decreases |ids|
  {
    if ids == [] || p.won.Some? {
      n := 0;
    } else {
      n := RunAsks(w, Candidate(w, p, ids[0]), ids[1..]);
      AsksFirst(w, p, ids, n);
      n := n + 1;
    }
  }

  lemma AsksFirst(w: World, p: Progress, ids: seq<string>, n: nat)
    requires ids != [] && p.won.None? && Asks(w, Candidate(w, p, ids[0]), ids[1..], n)
    ensures Asks(w, p, ids, n + 1)
  {
    var q, rest := Candidate(w, p, ids[0]), ids[1..];
    forall k | 1 <= k <= n + 1 ensures AskAll(w, p, ids[..k]) == AskAll(w, q, rest[..k - 1]) {
      AskFront(w, p, ids, k);
    }
    assert AskAll(w, p, ids[..0]) == p;
  }

  lemma AskFront(w: World, p: Progress, ids: seq<string>, k: nat)
    requires 1 <= k <= |ids|
    ensures AskAll(w, p, ids[..k]) == AskAll(w, Candidate(w, p, ids[0]), ids[1..][..k - 1])
  {
    assert ids[..k] == [ids[0]] + ids[1..][..k - 1];
    AskFirst(w, p, ids[0], ids[1..][..k - 1]);
  }

  lemma {:induction false} AskFirst(w: World, p: Progress, id: string, ids: seq<string>)
    ensures AskAll(w, p, [id] + ids) == AskAll(w, Candidate(w, p, id), ids)
    decreases |ids|
  {
    var all := [id] + ids;
    if ids == [] {
      assert all[..|all| - 1] == [];
    } else {
      assert all[..|all| - 1] == [id] + ids[..|ids| - 1];
      AskFirst(w, p, id, ids[..|ids| - 1]);
    }
  }

  lemma CandidatesNext(w: World, p: Progress, available: seq<Account>, i: nat)
    requires i < |available| && p.won.None?
    ensures RunCandidates(w, p, IdsOf(available[i..])) == RunCandidates(w, Candidate(w, p, available[i].id), IdsOf(available[i + 1..]))
  {
    assert IdsOf(available[i..])[1..] == IdsOf(available[i + 1..]);
  }

  class Service {
    const manager: Manager
    const pool: Pool.AccountPool
    const clock: Clock
    const mode: Pool.Mode
    const upstream: nat -> Reply
    const auth: nat -> AuthReply
    var sends: nat
    var authCalls: nat

    constructor (manager: Manager, pool: Pool.AccountPool, clock: Clock, mode: Pool.Mode, upstream: nat -> Reply, auth: nat -> AuthReply)
      ensures this.manager == manager && this.pool == pool && this.clock == clock && this.mode == mode
      ensures this.upstream == upstream && this.auth == auth && sends == 0 && authCalls == 0
    {
      this.manager, this.pool, this.clock, this.mode := manager, pool, clock, mode;
      this.upstream, this.auth := upstream, auth;
      sends, authCalls := 0, 0;
    }

    ghost function Outside(encodes: bool, badRequest: Signals): World {
      World(upstream, auth, clock.at, encodes, badRequest)
    }

    ghost function Stands(won: Option<Tokens>): Progress
      reads this, manager, clock
    {
      Progress(manager.accounts, manager.stats, sends, authCalls, clock.readings, won)
    }

    /** executeWithAccount. */
    method ExecuteWithAccount(encodes: bool, badRequest: Signals) returns (end: End)
      modifies this`sends
      ensures (end, sends - old(sends)) == Asked(Outside(encodes, badRequest), old(sends))
      ensures old(sends) <= sends <= old(sends) + ENDPOINTS
      ensures end.Won? ==> sends > old(sends) && Answers(upstream(sends - 1), end.tokens)
      ensures end.Lost? ==> sends == old(sends) + (if encodes then ENDPOINTS else 0)
                            && forall k, t :: old(sends) <= k < sends ==> !Answers(upstream(k), t)
    {
      if !encodes {
        return Lost(400, badRequest);
      }
      end := Lost(0, badRequest);
      var asked := 0;
      while asked < ENDPOINTS
        invariant 0 <= asked <= ENDPOINTS && sends == old(sends) + asked && end.Lost?
        invariant forall k :: old(sends) <= k < sends ==> Parsed(upstream(k)).None?
        invariant asked == 0 ==> end.status == 0
        invariant asked == 1 ==> end.status == StatusAfter(0, upstream(old(sends)))
        invariant asked == 2 ==> end.status == StatusAfter(StatusAfter(0, upstream(old(sends))), upstream(old(sends) + 1))
        invariant asked > 0 ==> end.signals == upstream(sends - 1).signals
      {
        var reply := upstream(sends);
        sends := sends + 1;
        asked := asked + 1;
        if reply.TransportError? {
          end := Lost(end.status, reply.signals);
        } else if reply.status < 200 || reply.status >= 300 {
          end := Lost(reply.status, reply.signals);
        } else if reply.parsed.None? {
          end := Lost(end.status, reply.signals);
        } else {
          assert Parsed(upstream(sends - 1)) == reply.parsed;
          return Won(reply.parsed.value);
        }
      }
    }

    method ApplyFailure(id: string, decision: Decision)
      modifies manager`accounts, clock
      ensures manager.accounts == Charged(old(manager.accounts), id, decision, clock.at(old(clock.readings)))
      ensures clock.readings == old(clock.readings) + 1
      ensures Touched(old(manager.accounts), manager.accounts, id)
    {
      var now := clock.Now();
      UpdateTouches(manager.accounts, id, a => AfterFailure(a, decision, now));
      ChargedIs(manager.accounts, id, decision, now, a => AfterFailure(a, decision, now));
      var found := manager.UpdateAccount(id, a => AfterFailure(a, decision, now));
    }

    method Authenticate(id: string) returns (refusal: Option<Signals>)
      modifies manager`accounts, this`authCalls
      ensures authCalls == old(authCalls) + 1 && refusal == auth(old(authCalls)).refusal
      ensures manager.accounts == Checked(old(manager.accounts), id, auth(old(authCalls)).change)
      ensures Touched(old(manager.accounts), manager.accounts, id)
    {
      var reply := auth(authCalls);
      authCalls := authCalls + 1;
      if reply.change.Some? {
        UpdateTouches(manager.accounts, id, a => Authenticated(a, reply.change.value));
        CheckedIs(manager.accounts, id, reply.change, a => Authenticated(a, reply.change.value));
        var found := manager.UpdateAccount(id, a => Authenticated(a, reply.change.value));
      }
      refusal := reply.refusal;
    }

    /** One candidate: refused, failed or answered. */
    method TryCandidate(id: string, encodes: bool, badRequest: Signals) returns (won: Option<Tokens>)
      requires DistinctIds(manager.accounts) && IndexOf(manager.accounts, id) != -1
      modifies manager, clock, this`sends, this`authCalls
      ensures Stands(won) == Candidate(Outside(encodes, badRequest), old(Stands(None)), id)
      ensures old(sends) <= sends <= old(sends) + ENDPOINTS && old(clock.readings) <= clock.readings
      ensures CandidateEnds(old(manager.accounts), old(manager.stats), manager.accounts, manager.stats, id, won)
      ensures authCalls == old(authCalls) + 1
      ensures won.Some? ==> sends > old(sends) && Answers(upstream(sends - 1), won.value)
    {
      ghost var first := manager.accounts;
      var refusal := Authenticate(id);
      ghost var touched := manager.accounts;
      if refusal.Some? {
        ApplyFailure(id, ClassifyHttp(401, refusal.value));
        CandidateLost(first, touched, manager.accounts, manager.stats, id);
        won := None;
      } else {
        TouchedFinds(first, touched, id);
        TouchedDistinct(first, touched, id);
        won := AskCandidate(id, encodes, badRequest);
        CandidateAfter(first, touched, old(manager.stats), manager.accounts, manager.stats, id, won);
      }
    }

    method Reward(id: string, tokens: Tokens)
      requires DistinctIds(manager.accounts) && IndexOf(manager.accounts, id) != -1
      modifies manager, clock
      ensures manager.accounts == Rewarded(old(manager.accounts), id, tokens, clock.at(old(clock.readings)))
      ensures manager.stats == Recorded(old(manager.stats), Some(tokens)) && clock.readings == old(clock.readings) + 1
      ensures CandidateEnds(old(manager.accounts), old(manager.stats), manager.accounts, manager.stats, id, Some(tokens))
    {
      var now := clock.Now();
      CandidateWon(manager.accounts, manager.accounts, manager.stats, id, tokens, now);
      RewardedIs(manager.accounts, id, tokens, now, a => Succeeded(a, tokens, now, false));
      manager.MarkSuccess(id, tokens, now, false);
    }

    /** A candidate whose token is good. */
    method AskCandidate(id: string, encodes: bool, badRequest: Signals) returns (won: Option<Tokens>)
      requires DistinctIds(manager.accounts) && IndexOf(manager.accounts, id) != -1
      modifies manager, clock, this`sends
      ensures Stands(won) == Attempted(Outside(encodes, badRequest), old(Stands(None)), id)
      ensures old(sends) <= sends <= old(sends) + ENDPOINTS && old(clock.readings) <= clock.readings
      ensures CandidateEnds(old(manager.accounts), old(manager.stats), manager.accounts, manager.stats, id, won)
      ensures won.Some? ==> sends > old(sends) && Answers(upstream(sends - 1), won.value)
    {
      ghost var first := manager.accounts;
      var end := ExecuteWithAccount(encodes, badRequest);
      if end.Won? {
        Reward(id, end.tokens);
        won := Some(end.tokens);
      } else {
        ApplyFailure(id, if end.status == 0 then TRANSPORT else ClassifyHttp(end.status, end.signals));
        CandidateLost(first, first, manager.accounts, manager.stats, id);
        won := None;
      }
    }

    /** The loop over the candidates, up to the first that answers. */
    method TryAll(available: seq<Account>, encodes: bool, badRequest: Signals) returns (won: Option<Tokens>, ghost tried: nat)
      requires DistinctIds(manager.accounts) && Stored(available, manager.accounts)
      modifies manager, clock, this`sends, this`authCalls
      ensures old(sends) <= sends <= old(sends) + ENDPOINTS * tried && old(clock.readings) <= clock.readings
      ensures tried <= |available| && (won.None? ==> tried == |available|)
      ensures Stands(won) == RunCandidates(Outside(encodes, badRequest), old(Stands(None)), IdsOf(available))
      ensures authCalls == old(authCalls) + tried
      ensures Tried(old(manager.accounts), old(manager.stats), manager.accounts, manager.stats, IdsOf(available[..tried]), won)
      ensures EarnedBy(won, old(sends), sends, upstream)
    {
      ghost var first, stats, w := manager.accounts, manager.stats, Outside(encodes, badRequest);
      tried := 0;
      TriedNothing(first, stats);
      assert available[0..] == available;
      var i := 0;
      while i < |available|
        invariant 0 <= i == tried <= |available|
        invariant authCalls == old(authCalls) + tried
        invariant RunCandidates(w, Stands(None), IdsOf(available[i..])) == RunCandidates(w, old(Stands(None)), IdsOf(available))
        invariant Tried(first, stats, manager.accounts, manager.stats, IdsOf(available[..tried]), None)
        invariant old(sends) <= sends <= old(sends) + ENDPOINTS * tried && old(clock.readings) <= clock.readings
      {
        ghost var before := manager.accounts;
        StillStored(first, before, available, i);
        CandidatesNext(w, Stands(None), available, i);
        won := TryCandidate(available[i].id, encodes, badRequest);
        NextTried(first, stats, before, manager.accounts, manager.stats, available, i, won);
        i, tried := i + 1, tried + 1;
        if won.Some? {
          return;
        }
      }
      won := None;
    }

    /** The readiness check, and the list when it succeeds. */
    method Candidates() returns (ready: bool, available: seq<Account>)
      requires DistinctIds(manager.accounts) && pool.current < Pool.UINT64
      modifies pool, clock
      ensures pool.current < Pool.UINT64 && old(clock.readings) < clock.readings
      ensures ready ==> clock.readings == old(clock.readings) + 2
      ensures ready <==> Pool.Count("kiro", clock.at(old(clock.readings)), manager.accounts).ready > 0
      ensures available == if ready then Pool.Available(manager.accounts, pool.current, "kiro", mode, clock.at(old(clock.readings) + 1)) else []
      ensures DistinctIds(available) && Stored(available, manager.accounts)
    {
      KiroTarget();
      var now := clock.Now();
      var snapshot := Pool.AvailabilitySnapshot(manager.accounts, "kiro", now);
      if snapshot.ready == 0 {
        return false, [];
      }
      now := clock.Now();
      available := pool.AvailableAccounts(manager.accounts, "kiro", mode, now);
      AllStored(manager.accounts, pool.current, mode, now);
      ready := true;
    }

    /** ExecuteFromIR. The candidates are tried in the pool's order, each once and
        the next only after the one before has failed and was charged, up to the
        first that answers; without one the whole list was tried. */
    method Execute(model: string, encodes: bool, badRequest: Signals)
      returns (answer: Answer, ghost listed: seq<Account>, ghost tried: nat)
      requires DistinctIds(manager.accounts) && pool.current < Pool.UINT64
      modifies manager, pool, clock, this`sends, this`authCalls
      ensures pool.current < Pool.UINT64 && old(clock.readings) <= clock.readings
      ensures old(sends) <= sends <= old(sends) + ENDPOINTS * tried
      ensures DistinctIds(listed) && tried <= |listed| && (answer.Failure? ==> tried == |listed|)
      ensures Booked(old(manager.accounts), old(manager.stats), manager.accounts, manager.stats, IdsOf(listed[..tried]), Winner(answer))
      ensures EarnedBy(Winner(answer), old(sends), sends, upstream)
      ensures OnlyOf(old(manager.accounts), manager.accounts, "kiro")
      ensures !Blank(model) && Pool.Count("kiro", clock.at(old(clock.readings)), old(manager.accounts)).ready > 0
              ==> listed == Pool.Available(old(manager.accounts), pool.current, "kiro", mode, clock.at(old(clock.readings) + 1))
      ensures authCalls == old(authCalls) + tried
      ensures !Blank(model) && Pool.Count("kiro", clock.at(old(clock.readings)), old(manager.accounts)).ready > 0 ==>
                RanThrough(RunCandidates(Outside(encodes, badRequest), old(Stands(None)).(readings := old(clock.readings) + 2), IdsOf(listed)),
                           Stands(Winner(answer)), answer)
    {
      listed, tried := [], 0;
      ghost var first, stats := manager.accounts, manager.stats;
      TriedNothing(first, stats);
      if Blank(model) {
        manager.RecordRequestFailure();
        return Failure(400), [], 0;
      }
      var ready, available := Candidates();
      listed := available;
      if !ready {
        manager.RecordRequestFailure();
        return Failure(503), [], 0;
      }
      var won;
      won, tried := TryAll(available, encodes, badRequest);
      TriedBooked(first, stats, manager.accounts, manager.stats, IdsOf(listed[..tried]), won);
      OthersKept(first, manager.accounts, listed, tried);
      if won.Some? {
        return Success(won.value), listed, tried;
      }
      manager.RecordRequestFailure();
      answer := Failure(503);
    }
  }

  // ---------- what a candidate's failure does ----------

  /** How a failure leaves the account: a ban for a blocking message, half a minute for
      a refused token, an hour for an exhausted quota, ten seconds for anything else. */
  ghost predicate Fared(before: seq<Account>, after: seq<Account>, id: string, status: int, s: Signals, now: int) {
    Found(before, id) &&
    var a := Called(before, id);
    if s.blocked then
      after == With(before, id, Banned(a))
    else if status in {401, 403} && (s.refreshable || !s.quotaWords) then
      after == With(before, id, a.(health := CooldownTransient, cooldownUntil := now + 30, quota := Quota("unknown", [])))
    else if status == 429 || s.quotaWords then
      after == With(before, id, a.(banned := false, health := CooldownQuota, cooldownUntil := now + 3600))
    else
      after == With(before, id, a.(banned := false, health := CooldownTransient, cooldownUntil := now + 10))
  }

  lemma ChargedFares(before: seq<Account>, id: string, status: int, s: Signals, now: int)
    requires Found(before, id)
    ensures Fared(before, Charged(before, id, ClassifyHttp(status, s), now), id, status, s, now)
  {
    var d := ClassifyHttp(status, s);
    ClassMeans(status, s);
    UpdateAt(before, id, a => AfterFailure(a, d, now));
  }

  /** A failed transport is charged like a failure that says nothing. */
  lemma TransportFares(before: seq<Account>, id: string, now: int)
    requires Found(before, id)
    ensures Fared(before, Charged(before, id, TRANSPORT, now), id, 0, Signals(false, false, false, false), now)
  {
    UpdateAt(before, id, a => AfterFailure(a, TRANSPORT, now));
  }

  /** The last status that was seen is no success; without one there is nothing to
      judge. */
  predicate LastStatus(first: Reply, second: Reply, status: int) {
    if second.Answered? && !(200 <= second.status < 300) then status == second.status
    else if first.Answered? && !(200 <= first.status < 300) then status == first.status
    else status == 0
  }

  /** A 2xx with a completion that can be read. */
  predicate Completes(r: Reply) {
    r.Answered? && 200 <= r.status < 300 && r.parsed.Some?
  }

  /** One candidate: a refused token is charged without a request; otherwise the first
      endpoint that answers is rewarded, and if neither does, the failure is charged. */
  ghost predicate CandidateFared(w: World, p: Progress, checked: seq<Account>, id: string, q: Progress) {
    var reply, now := w.auth(p.checks), w.at(p.readings);
    var first, second := w.upstream(p.sends), w.upstream(p.sends + 1);
    && q.checks == p.checks + 1 && q.readings == p.readings + 1
    && if reply.refusal.Some? then
         q.sends == p.sends && q.stats == p.stats && q.won == p.won && Fared(checked, q.accounts, id, 401, reply.refusal.value, now)
       else if !w.encodes then
         q.sends == p.sends && q.stats == p.stats && q.won == p.won && Fared(checked, q.accounts, id, 400, w.badRequest, now)
       else if Completes(first) || Completes(second) then
         var tokens := if Completes(first) then first.parsed else second.parsed;
         && q.sends == p.sends + (if Completes(first) then 1 else 2) && q.won == tokens && q.stats == Recorded(p.stats, tokens)
         && Found(checked, id) && q.accounts == With(checked, id, Succeeded(Called(checked, id), tokens.value, now, false))
       else
         && q.sends == p.sends + 2 && q.stats == p.stats && q.won == p.won
         && exists status :: LastStatus(first, second, status) &&
                             Fared(checked, q.accounts, id, status, if status == 0 then Signals(false, false, false, false) else second.signals, now)
  }

  lemma CheckedFinds(accounts: seq<Account>, id: string, change: Option<AuthChange>)
    requires Found(accounts, id)
    ensures Found(Checked(accounts, id, change), id)
    ensures Checked(accounts, id, change)
            == if change.None? then accounts else With(accounts, id, Authenticated(Called(accounts, id), change.value))
  {
    if change.Some? {
      UpdateAt(accounts, id, a => Authenticated(a, change.value));
      UpdateTouches(accounts, id, a => Authenticated(a, change.value));
      TouchedFinds(accounts, Checked(accounts, id, change), id);
      FoundIs(Checked(accounts, id, change), id);
    }
  }

  lemma LostFares(w: World, p: Progress, id: string)
    requires Found(p.accounts, id) && p.won.None? && w.encodes && !Completes(w.upstream(p.sends)) && !Completes(w.upstream(p.sends + 1))
    ensures var q, s := Attempted(w, p, id), StatusAfter(StatusAfter(0, w.upstream(p.sends)), w.upstream(p.sends + 1));
            && q == p.(accounts := q.accounts, sends := p.sends + 2, readings := p.readings + 1)
            && LastStatus(w.upstream(p.sends), w.upstream(p.sends + 1), s)
            && Fared(p.accounts, q.accounts, id, s, if s == 0 then Signals(false, false, false, false) else w.upstream(p.sends + 1).signals,
                     w.at(p.readings))
  {
    var s := StatusAfter(StatusAfter(0, w.upstream(p.sends)), w.upstream(p.sends + 1));
    if s == 0 {
      TransportFares(p.accounts, id, w.at(p.readings));
    } else {
      ChargedFares(p.accounts, id, s, w.upstream(p.sends + 1).signals, w.at(p.readings));
    }
  }

  lemma WonFares(w: World, p: Progress, id: string)
    requires Found(p.accounts, id) && w.encodes && (Completes(w.upstream(p.sends)) || Completes(w.upstream(p.sends + 1)))
    ensures var q, first := Attempted(w, p, id), w.upstream(p.sends);
            var tokens := if Completes(first) then first.parsed else w.upstream(p.sends + 1).parsed;
            q == Progress(With(p.accounts, id, Succeeded(Called(p.accounts, id), tokens.value, w.at(p.readings), false)), Recorded(p.stats, tokens),
                          p.sends + (if Completes(first) then 1 else 2), p.checks, p.readings + 1, tokens)
  {
    var first := w.upstream(p.sends);
    var tokens := if Completes(first) then first.parsed else w.upstream(p.sends + 1).parsed;
    UpdateAt(p.accounts, id, a => Succeeded(a, tokens.value, w.at(p.readings), false));
  }

  lemma CandidateFares(w: World, p: Progress, id: string)
    requires Found(p.accounts, id) && p.won.None?
    ensures CandidateFared(w, p, Checked(p.accounts, id, w.auth(p.checks).change), id, Candidate(w, p, id))
  {
    var reply := w.auth(p.checks);
    var checked := Checked(p.accounts, id, reply.change);
    var q := p.(accounts := checked, checks := p.checks + 1);
    CheckedFinds(p.accounts, id, reply.change);
    if reply.refusal.Some? {
      ChargedFares(checked, id, 401, reply.refusal.value, w.at(p.readings));
    } else if !w.encodes {
      ChargedFares(checked, id, 400, w.badRequest, w.at(p.readings));
    } else if Completes(w.upstream(p.sends)) || Completes(w.upstream(p.sends + 1)) {
      WonFares(w, q, id);
    } else {
      LostFares(w, q, id);
    }
  }

  lemma ChargedIs(accounts: seq<Account>, id: string, d: Decision, now: int, change: Account -> Account)
    requires forall a :: change(a) == AfterFailure(a, d, now)
    ensures Charged(accounts, id, d, now) == Update(accounts, id, change)
  {
    UpdateSame(accounts, id, change, a => AfterFailure(a, d, now));
  }

  lemma CheckedIs(accounts: seq<Account>, id: string, reply: Option<AuthChange>, change: Account -> Account)
    requires reply.Some? && forall a :: change(a) == Authenticated(a, reply.value)
    ensures Checked(accounts, id, reply) == Update(accounts, id, change)
  {
    UpdateSame(accounts, id, change, a => Authenticated(a, reply.value));
  }

  lemma RewardedIs(accounts: seq<Account>, id: string, tokens: Tokens, now: int, change: Account -> Account)
    requires forall a :: change(a) == Succeeded(a, tokens, now, false)
    ensures Rewarded(accounts, id, tokens, now) == Update(accounts, id, change)
  {
    UpdateSame(accounts, id, change, a => Succeeded(a, tokens, now, false));
  }

  /** A request is only won by the last reply. */
  ghost predicate EarnedBy(won: Option<Tokens>, before: nat, sends: nat, upstream: nat -> Reply) {
    won.Some? ==> sends > before && Answers(upstream(sends - 1), won.value)
  }

  /** How a candidate leaves the store: only its own account has changed, and
      that is credited if the candidate answered. */
  ghost predicate CandidateEnds(before: seq<Account>, stats: Stats, after: seq<Account>, stats': Stats, id: string, won: Option<Tokens>) {
    && Others(before, after, [id]) && Credited(before, after, id, won)
    && stats' == if won.Some? then Recorded(stats, won) else stats
  }

  lemma CandidateLost(before: seq<Account>, touched: seq<Account>, after: seq<Account>, stats: Stats, id: string)
    requires Touched(before, touched, id) && Touched(touched, after, id)
    ensures CandidateEnds(before, stats, after, stats, id, None)
  {
  }

  lemma TouchedDistinct(before: seq<Account>, touched: seq<Account>, id: string)
    requires DistinctIds(before) && Touched(before, touched, id)
    ensures DistinctIds(touched)
  {
  }

  lemma CandidateAfter(before: seq<Account>, touched: seq<Account>, stats: Stats, after: seq<Account>, stats': Stats, id: string,
                       won: Option<Tokens>)
    requires Touched(before, touched, id) && CandidateEnds(touched, stats, after, stats', id, won)
    ensures CandidateEnds(before, stats, after, stats', id, won)
  {
    CreditedAfter(before, touched, after, id, won);
  }

  lemma CandidateWon(before: seq<Account>, touched: seq<Account>, stats: Stats, id: string, tokens: Tokens, now: int)
    requires DistinctIds(before) && IndexOf(before, id) != -1 && Touched(before, touched, id)
    ensures IndexOf(touched, id) != -1
    ensures CandidateEnds(before, stats, Update(touched, id, a => Succeeded(a, tokens, now, false)), Recorded(stats, Some(tokens)), id, Some(tokens))
  {
    TouchedFinds(before, touched, id);
    SuccessCredits(touched, id, tokens, now, false);
    UpdateAt(touched, id, a => Succeeded(a, tokens, now, false));
    IndexOfProps(touched, id);
    CreditedAfter(before, touched, Update(touched, id, a => Succeeded(a, tokens, now, false)), id, Some(tokens));
  }

  /** How candidates, tried in order, leave the store: only their accounts have
      changed, and the last one is credited if it answered. */
  ghost predicate Tried(before: seq<Account>, stats: Stats, after: seq<Account>, stats': Stats, ids: seq<string>, won: Option<Tokens>) {
    && DistinctIds(before) && DistinctIds(after) && Others(before, after, ids)
    && stats' == (if won.Some? then Recorded(stats, won) else stats) && Moved(before, after, won)
    && (won.Some? ==> ids != []) && Credited(before, after, if ids == [] then "" else ids[|ids| - 1], won)
  }

  /** The same, with the request entered in the books. */
  ghost predicate Booked(before: seq<Account>, stats: Stats, after: seq<Account>, stats': Stats, ids: seq<string>, won: Option<Tokens>) {
    && Entered(before, stats, after, stats', won) && Others(before, after, ids)
    && (won.Some? ==> ids != [] && Credited(before, after, ids[|ids| - 1], won))
  }

  /** How the request ends where the candidates ended. */
  ghost predicate RanThrough(run: Progress, end: Progress, answer: Answer) {
    && end == run.(stats := if run.won.Some? then run.stats else Recorded(run.stats, None))
    && answer == if run.won.Some? then Success(run.won.value) else Failure(503)
  }

  lemma TriedNothing(accounts: seq<Account>, stats: Stats)
    requires DistinctIds(accounts)
    ensures Tried(accounts, stats, accounts, stats, [], None) && Booked(accounts, stats, accounts, Recorded(stats, None), [], None)
  {
  }

  lemma TriedBooked(before: seq<Account>, stats: Stats, after: seq<Account>, stats': Stats, ids: seq<string>, won: Option<Tokens>)
    requires Tried(before, stats, after, stats', ids, won)
    ensures Booked(before, stats, after, if won.Some? then stats' else Recorded(stats', None), ids, won)
  {
  }

  ghost predicate Stored(some: seq<Account>, accounts: seq<Account>) {
    forall k :: 0 <= k < |some| ==> some[k] in accounts && some[k].provider == "kiro"
  }

  lemma StillStored(first: seq<Account>, accounts: seq<Account>, available: seq<Account>, i: nat)
    requires |first| == |accounts| && forall k :: 0 <= k < |first| ==> first[k].id == accounts[k].id
    requires Stored(available, first) && i < |available|
    ensures IndexOf(accounts, available[i].id) != -1
  {
    IndexOfProps(accounts, available[i].id);
    var k :| 0 <= k < |first| && first[k] == available[i];
    assert accounts[k].id == first[k].id;
  }

  lemma CandidateTried(first: seq<Account>, stats: Stats, before: seq<Account>, after: seq<Account>, stats': Stats, ids: seq<string>,
                       id: string, won: Option<Tokens>)
    requires Tried(first, stats, before, stats, ids, None) && IndexOf(before, id) != -1
    requires CandidateEnds(before, stats, after, stats', id, won)
    ensures Tried(first, stats, after, stats', ids + [id], won)
  {
    IndexOfProps(before, id);
    assert first[IndexOf(before, id)].id == id;
    CreditedAfter(first, before, after, id, won);
    CreditedMoves(first, after, id, won);
    OthersNext(first, before, after, ids, id);
  }

  lemma NextTried(first: seq<Account>, stats: Stats, before: seq<Account>, after: seq<Account>, stats': Stats, available: seq<Account>,
                  i: nat, won: Option<Tokens>)
    requires i < |available| && IndexOf(before, available[i].id) != -1
    requires Tried(first, stats, before, stats, IdsOf(available[..i]), None)
    requires CandidateEnds(before, stats, after, stats', available[i].id, won)
    ensures Tried(first, stats, after, stats', IdsOf(available[..i + 1]), won)
  {
    CandidateTried(first, stats, before, after, stats', IdsOf(available[..i]), available[i].id, won);
    IdsNext(available, i);
  }

  function IdsOf(accounts: seq<Account>): seq<string> {
    seq(|accounts|, k requires 0 <= k < |accounts| => accounts[k].id)
  }

  lemma IdsNext(accounts: seq<Account>, i: nat)
    requires i < |accounts|
    ensures IdsOf(accounts[..i + 1]) == IdsOf(accounts[..i]) + [accounts[i].id]
  {
  }

  /** Accounts that are not called one of the ids are as they were. */
  ghost predicate Others(before: seq<Account>, after: seq<Account>, ids: seq<string>) {
    |before| == |after| && forall k :: 0 <= k < |before| && before[k].id !in ids ==> after[k] == before[k]
  }

  lemma OthersKept(before: seq<Account>, after: seq<Account>, listed: seq<Account>, tried: nat)
    requires DistinctIds(before) && Stored(listed, before) && tried <= |listed| && Others(before, after, IdsOf(listed[..tried]))
    ensures OnlyOf(before, after, "kiro")
  {
    forall k | 0 <= k < |before| && before[k].id in IdsOf(listed[..tried]) ensures before[k].provider == "kiro" {
      var j :| 0 <= j < tried && listed[j].id == before[k].id;
      assert listed[j] in before;
    }
  }

  lemma OthersNext(first: seq<Account>, before: seq<Account>, after: seq<Account>, ids: seq<string>, id: string)
    requires |first| == |before| && forall k :: 0 <= k < |first| ==> first[k].id == before[k].id
    requires Others(first, before, ids) && Others(before, after, [id])
    ensures Others(first, after, ids + [id])
  {
  }

  lemma AllStored(accounts: seq<Account>, current: nat, mode: Pool.Mode, now: int)
    requires DistinctIds(accounts)
    ensures var available := Pool.Available(accounts, current, "kiro", mode, now);
            DistinctIds(available) && Stored(available, accounts)
  {
    var available := Pool.Available(accounts, current, "kiro", mode, now);
    Pool.AvailableDistinct(accounts, current, "kiro", mode, now);
    forall k | 0 <= k < |available| ensures available[k] in accounts && available[k].provider == "kiro" {
      Pool.AvailableExactly(accounts, current, "kiro", mode, now, available[k]);
      assert available[k] in multiset(available);
      assert available[k] in multiset(accounts);
    }
  }

  lemma KiroTarget()
    ensures Pool.Target("kiro") == "kiro"
  {
    TrimmedIsItself("kiro");
    assert forall i :: 0 <= i < 4 ==> LowerChar("kiro"[i]) == "kiro"[i];
  }
}
