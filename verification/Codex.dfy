/** The Codex service: one request tries accounts until one of them answers. */
module CodexService {
  import opened Text
  import opened Accounts
  import opened Failures
  import opened Store
  import Pool

  /** What the reader of a stream found. */
  datatype Outcome = Unreadable | Completed(text: string, thinking: string, toolUses: nat, tokens: Tokens)

  datatype Body = Body(signals: Signals, resetsAt: int, resetsIn: int, outcome: Outcome)

  datatype Reply = TransportError | Answered(status: int, body: Body)

  /** CompletionHasVisibleOutput. */
  predicate HasVisibleOutput(o: Outcome) {
    o.Completed? && (!Blank(o.text) || !Blank(o.thinking) || o.toolUses > 0)
  }

  /** applyFailureDecision, on the account it names. */
  function AfterFailure(a: Account, d: Decision, now: int): Account {
    match d.class_
    case RequestShape => a
    case DurableDisabled => if d.ban then Banned(a) else Disabled(a)
    case AuthRefreshable => NeedsLogin(a, now + if d.cooldown > 0 then d.cooldown else 30)
    case QuotaCooldown => QuotaExhausted(a, now + d.cooldown)
    case RetryableTransport => FailedTransiently(a, now)
    case EmptyStream => FailedTransiently(a, now)
    case ProviderFatal => FailedTransiently(a, now)
  }

  /** Out of the pool for good, until somebody steps in. */
  predicate Durable(a: Account) {
    a.banned || a.health == BannedHealth || !a.enabled || a.health == DisabledDurable
  }

  /** A failure at `now` took the account out: for good, or for a cooldown that
      lies ahead unless an exhausted quota is about to be reset. */
  predicate Waiting(a: Account, now: int) {
    Durable(a) || (a.cooldownUntil >= now && (a.health != CooldownQuota ==> a.cooldownUntil > now))
  }

  /** Every failure that does not reject the request itself does that. */
  lemma FailureSidelines(a: Account, d: Decision, now: int)
    requires d.class_ != RequestShape && (d.class_ == QuotaCooldown ==> d.cooldown >= 0)
    ensures Waiting(AfterFailure(a, d, now), now)
  {
    TransientCooldownGrows(1, a.consecutiveFailures + 1);
  }

  ghost predicate WaitingAt(accounts: seq<Account>, id: string, now: int) {
    forall k :: 0 <= k < |accounts| && accounts[k].id == id ==> Waiting(accounts[k], now)
  }

  /** The cooldown that a request set on the account `id` at a reading of the clock. */
  datatype Wait = Wait(id: string, reading: nat, until: int)

  /** The cooldown a failed attempt has left an account to, if it did so. */
  function WaitsOf(accounts: seq<Account>, id: string, end: AttemptEnd, reading: nat): seq<Wait> {
    var i := IndexOf(accounts, id);
    if !end.Failed? || end.exclude || !(0 <= i < |accounts|) || Durable(accounts[i]) then []
    else [Wait(id, reading, accounts[i].cooldownUntil)]
  }

  /** None of the readings from `from` to `to` has reached one of the cooldowns. */
  ghost predicate PassesNone(at: nat -> int, from: nat, to: nat, waits: seq<Wait>) {
    forall i, k :: from <= i < to && 0 <= k < |waits| ==> at(i) < waits[k].until
  }

  /** Each cooldown was set on a picked account at a reading of this request
      that it does not lie before. */
  ghost predicate Genuine(at: nat -> int, from: nat, to: nat, picks: seq<string>, waits: seq<Wait>) {
    forall k :: 0 <= k < |waits| ==> waits[k].id in picks && from <= waits[k].reading < to && at(waits[k].reading) <= waits[k].until
  }

  /** Out for good, or as long as one of the cooldowns lasts. */
  predicate Sidelined(a: Account, waits: seq<Wait>) {
    Durable(a) || exists k :: 0 <= k < |waits| && waits[k].until == a.cooldownUntil
  }

  ghost predicate SidelinedAt(accounts: seq<Account>, id: string, waits: seq<Wait>) {
    forall k :: 0 <= k < |accounts| && accounts[k].id == id ==> Sidelined(accounts[k], waits)
  }

  /** The first account of the list whose id is not excluded. */
  function FirstAllowed(available: seq<Account>, excluded: set<string>): Option<Account> {
    if available == [] then None
    else if available[0].id in excluded then FirstAllowed(available[1..], excluded)
    else Some(available[0])
  }

  lemma {:induction false} FirstAllowedIs(available: seq<Account>, excluded: set<string>)
    ensures var first := FirstAllowed(available, excluded);
            (first.None? ==> forall k :: 0 <= k < |available| ==> available[k].id in excluded) &&
            (first.Some? ==> first.value in available && first.value.id !in excluded)
    decreases |available|
  {
    if available != [] && available[0].id in excluded {
      FirstAllowedIs(available[1..], excluded);
      assert forall k :: 1 <= k < |available| ==> available[k] == available[1..][k - 1];
    }
  }

  lemma {:induction false} WaitingAfterFailure(accounts: seq<Account>, id: string, d: Decision, now: int)
    requires DistinctIds(accounts) && d.class_ != RequestShape && (d.class_ == QuotaCooldown ==> d.cooldown >= 0)
    ensures WaitingAt(Update(accounts, id, a => AfterFailure(a, d, now)), id, now)
  {
    UpdateAt(accounts, id, a => AfterFailure(a, d, now));
    IndexOfProps(accounts, id);
    var i := IndexOf(accounts, id);
    if i != -1 {
      FailureSidelines(accounts[i], d, now);
    }
  }

  /** What is left, at the reading before `last`, of an exhausted quota that was read
      from the reply from reading r on: until the reset time that it names, if that lies
      ahead, or for the seconds it names, or for an hour. */
  ghost predicate IsQuotaCooldown(body: Body, left: int, at: nat -> int, r: nat, last: nat) {
    last > r &&
    var until := if body.resetsAt > at(r + 1) then body.resetsAt
                 else if body.resetsIn > 0 then at(r + 2) + body.resetsIn
                 else at(r) + HOUR;
    left == if at(last - 1) <= until then until - at(last - 1) else HOUR
  }

  datatype AttemptEnd =
    | Won(tokens: Tokens)
    | Stopped(status: int)
    | Failed(status: int, exclude: bool)

  /** How an attempt with the account `id` leaves the store; `now` is the moment
      it ended. */
  ghost predicate Ended(before: seq<Account>, stats: Stats, after: seq<Account>, stats': Stats, id: string, end: AttemptEnd, now: int) {
    match end
    case Won(tokens) => stats' == Recorded(stats, Some(tokens)) && Credited(before, after, id, Some(tokens)) && OnlyAt(before, after, id)
    case Stopped(_) => stats' == Recorded(stats, None) && Touched(before, after, id)
    case Failed(_, exclude) => stats' == stats && Touched(before, after, id) && (exclude || WaitingAt(after, id, now))
  }

  lemma EndedAfter(first: seq<Account>, before: seq<Account>, stats: Stats, after: seq<Account>, stats': Stats,
                   id: string, end: AttemptEnd, now: int)
    requires Touched(first, before, id) && Ended(before, stats, after, stats', id, end, now)
    ensures Ended(first, stats, after, stats', id, end, now)
  {
  }

  class Service {
    const manager: Manager
    const pool: Pool.AccountPool
    const clock: Clock
    const mode: Pool.Mode
    const upstream: nat -> Reply
    const auth: nat -> AuthReply
    var sends: nat
    var authCalls: nat

    constructor (manager: Manager, pool: Pool.AccountPool, clock: Clock, mode: Pool.Mode, upstream: nat -> Reply, auth: nat -> AuthReply)
      ensures this.manager == manager && this.pool == pool && this.clock == clock && this.mode == mode
      ensures this.upstream == upstream && this.auth == auth && sends == 0 && authCalls == 0
    {
      this.manager, this.pool, this.clock, this.mode := manager, pool, clock, mode;
      this.upstream, this.auth := upstream, auth;
      sends, authCalls := 0, 0;
    }

    /** handleUpstreamFailure. */
    method HandleUpstreamFailure(status: int, body: Body) returns (decision: Decision)
      modifies clock
      ensures old(clock.readings) <= clock.readings <= old(clock.readings) + 4
      ensures decision == ClassifyHttp(status, body.signals).(cooldown := decision.cooldown)
      ensures decision.class_ != QuotaCooldown ==> decision == ClassifyHttp(status, body.signals)
      ensures decision.class_ == QuotaCooldown ==> IsQuotaCooldown(body, decision.cooldown, clock.at, old(clock.readings), clock.readings)
    {
      decision := ClassifyHttp(status, body.signals);
      if decision.class_ == QuotaCooldown {
        var left := QuotaCooldownFor(body);
        decision := decision.(cooldown := left);
      }
    }

    /** The clock is read up to four times on the way. */
    method QuotaCooldownFor(body: Body) returns (left: int)
      modifies clock
      ensures old(clock.readings) < clock.readings <= old(clock.readings) + 4
      ensures IsQuotaCooldown(body, left, clock.at, old(clock.readings), clock.readings)
    {
      var t := clock.Now();
      var until := t + HOUR;
      t := clock.Now();
      if body.resetsAt > t {
        until := body.resetsAt;
      } else if body.resetsIn > 0 {
        t := clock.Now();
        until := t + body.resetsIn;
      }
      t := clock.Now();
      left := until - t;
      if left < 0 {
        left := HOUR;
      }
    }

    /** applyFailureDecision. */
    method ApplyFailure(id: string, decision: Decision)
      modifies manager, clock
      ensures manager.stats == old(manager.stats)
      ensures manager.accounts == Update(old(manager.accounts), id, a => AfterFailure(a, decision, clock.at(old(clock.readings))))
      ensures clock.readings == old(clock.readings) + 1
    {
      var now := clock.Now();
      ghost var before := manager.accounts;
      var found := false;
      match decision.class_ {
        case RequestShape =>
          UpdateNothing(before, id);
          UpdateSame(before, id, a => a, a => AfterFailure(a, decision, now));
        case DurableDisabled =>
          if decision.ban {
            found := manager.UpdateAccount(id, a => Banned(a));
            UpdateSame(before, id, a => Banned(a), a => AfterFailure(a, decision, now));
          } else {
            found := manager.UpdateAccount(id, a => Disabled(a));
            UpdateSame(before, id, a => Disabled(a), a => AfterFailure(a, decision, now));
          }
        case AuthRefreshable =>
          var until := now + if decision.cooldown > 0 then decision.cooldown else 30;
          found := manager.UpdateAccount(id, a => NeedsLogin(a, until));
          UpdateSame(before, id, a => NeedsLogin(a, until), a => AfterFailure(a, decision, now));
        case QuotaCooldown =>
          var until := now + decision.cooldown;
          found := manager.UpdateAccount(id, a => QuotaExhausted(a, until));
          UpdateSame(before, id, a => QuotaExhausted(a, until), a => AfterFailure(a, decision, now));
        case _ =>
          found := manager.UpdateAccount(id, a => FailedTransiently(a, now));
          UpdateSame(before, id, a => FailedTransiently(a, now), a => AfterFailure(a, decision, now));
      }
    }

    /** EnsureFreshAccount and RefreshAccount, as far as the store can see. */
    method Authenticate(id: string) returns (refusal: Option<Signals>)
      modifies manager`accounts, this`authCalls
      ensures authCalls == old(authCalls) + 1 && refusal == auth(old(authCalls)).refusal
      ensures manager.accounts == Refreshed(old(manager.accounts), id, auth(old(authCalls)))
      ensures Touched(old(manager.accounts), manager.accounts, id)
      ensures DistinctIds(old(manager.accounts)) ==> DistinctIds(manager.accounts)
    {
      var reply := auth(authCalls);
      authCalls := authCalls + 1;
      if reply.change.Some? {
        UpdateTouches(manager.accounts, id, a => Authenticated(a, reply.change.value));
        UpdateAt(manager.accounts, id, a => Authenticated(a, reply.change.value));
        var found := manager.UpdateAccount(id, a => Authenticated(a, reply.change.value));
      }
      refusal := reply.refusal;
    }

    /** RetryPlanner.NextAccount. */
    method NextAccount(excluded: set<string>) returns (candidate: Option<Account>)
      requires pool.current < Pool.UINT64
      modifies pool, clock
      ensures pool.current < Pool.UINT64
      ensures clock.readings == old(clock.readings) + 1
      ensures candidate == FirstAllowed(Pool.Available(manager.accounts, pool.current, "codex", mode, clock.at(old(clock.readings))), excluded)
    {
      var now := clock.Now();
      var available := pool.AvailableAccounts(manager.accounts, "codex", mode, now);
      CodexTarget();
      var i := 0;
      while i < |available|
        invariant 0 <= i <= |available|
        invariant FirstAllowed(available[i..], excluded) == FirstAllowed(available, excluded)
      {
        if available[i].id !in excluded {
          return Some(available[i]);
        }
        i := i + 1;
      }
      candidate := None;
    }

    /** The end of a failed attempt: the account pays, the planner has decided. */
    method Fail(id: string, failure: Decision, retry: RetryDecision) returns (end: AttemptEnd)
      requires DistinctIds(manager.accounts)
      requires failure.class_ != RequestShape && (failure.class_ == QuotaCooldown ==> failure.cooldown >= 0)
      modifies manager, clock
      ensures clock.readings == old(clock.readings) + 1
      ensures end == Failed(failure.status, retry.exclude)
      ensures manager.accounts == Update(old(manager.accounts), id, a => AfterFailure(a, failure, clock.at(old(clock.readings))))
      ensures Ended(old(manager.accounts), old(manager.stats), manager.accounts, manager.stats, id, end, clock.Last())
    {
      ghost var now := clock.at(clock.readings);
      UpdateTouches(manager.accounts, id, a => AfterFailure(a, failure, now));
      WaitingAfterFailure(manager.accounts, id, failure, now);
      ApplyFailure(id, failure);
      end := Failed(failure.status, retry.exclude);
    }

    /** What to make of a reply that is not a 2xx: ask again with a new token, or
        charge the account with a failure, the reply's or that of the refused
        refresh. */
    method Judge(id: string, status: int, body: Body, recovered: bool)
      returns (again: bool, decision: Decision, retry: RetryDecision)
      requires DistinctIds(manager.accounts)
      modifies manager`accounts, clock, this`authCalls
      ensures authCalls == old(authCalls) + if AsksRefresh(status, recovered) then 1 else 0
      ensures old(clock.readings) <= clock.readings <= old(clock.readings) + 4
      ensures manager.accounts == if AsksRefresh(status, recovered) then Refreshed(old(manager.accounts), id, auth(old(authCalls))) else old(manager.accounts)
      ensures Touched(old(manager.accounts), manager.accounts, id)
      ensures again <==> AsksRefresh(status, recovered) && auth(old(authCalls)).refusal.None?
      ensures !again && AsksRefresh(status, recovered) ==> GradedRefusal(decision, auth(old(authCalls)).refusal.value, retry.exclude)
      ensures !AsksRefresh(status, recovered) ==> Graded(decision, status, body, retry.exclude, clock.at, old(clock.readings), clock.readings)
    {
      again := false;
      decision := HandleUpstreamFailure(status, body);
      retry := Decide(AttemptResult(status, decision, recovered, false));
      AskedWhen(status, decision, body.signals, recovered);
      if retry.refreshAuth {
        var refusal := Authenticate(id);
        if refusal.None? {
          again := true;
          return;
        }
        decision := ClassifyHttp(401, refusal.value);
        retry := Decide(AttemptResult(decision.status, decision, true, false));
      }
    }

    /** The branch for a reply that is not a 2xx, as far as it ends the attempt. */
    method Refused(id: string, status: int, body: Body, recovered: bool) returns (again: bool, end: AttemptEnd)
      requires DistinctIds(manager.accounts) && Found(manager.accounts, id)
      modifies manager, clock, this`authCalls
      ensures authCalls == old(authCalls) + if AsksRefresh(status, recovered) then 1 else 0
      ensures old(clock.readings) <= clock.readings && (!again ==> old(clock.readings) < clock.readings)
      ensures again <==> AsksRefresh(status, recovered) && auth(old(authCalls)).refusal.None?
      ensures again ==> manager.accounts == Refreshed(old(manager.accounts), id, auth(old(authCalls))) && manager.stats == old(manager.stats)
      ensures again ==> Touched(old(manager.accounts), manager.accounts, id)
      ensures !again ==> Ended(old(manager.accounts), old(manager.stats), manager.accounts, manager.stats, id, end, clock.Last())
      ensures !again ==> !end.Won?
      ensures !again && AsksRefresh(status, recovered) ==>
                ChargedRefusal(Refreshed(old(manager.accounts), id, auth(old(authCalls))), manager.accounts, id,
                               auth(old(authCalls)).refusal.value, end, clock.Last())
      ensures !AsksRefresh(status, recovered) ==>
                Charged(old(manager.accounts), manager.accounts, id, status, body, end, clock.at, old(clock.readings), clock.readings)
    {
      var decision, retry;
      again, decision, retry := Judge(id, status, body, recovered);
      end := Failed(decision.status, retry.exclude);
      if again {
        return;
      }
      ghost var touched := manager.accounts;
      TouchedFound(old(manager.accounts), touched, id);
      if AsksRefresh(status, recovered) {
        end := ChargeRefusal(id, decision, retry, auth(old(authCalls)).refusal.value);
      } else {
        end := ChargeReply(id, status, body, decision, retry, old(clock.readings));
      }
      EndedAfter(old(manager.accounts), touched, old(manager.stats), manager.accounts, manager.stats, id, end, clock.Last());
    }

    /** The attempt ends with what a refused refresh means, */
    method ChargeRefusal(id: string, decision: Decision, retry: RetryDecision, ghost refusal: Signals) returns (end: AttemptEnd)
      requires DistinctIds(manager.accounts) && Found(manager.accounts, id) && GradedRefusal(decision, refusal, retry.exclude)
      modifies manager, clock
      ensures clock.readings == old(clock.readings) + 1 && !end.Won?
      ensures Ended(old(manager.accounts), old(manager.stats), manager.accounts, manager.stats, id, end, clock.Last())
      ensures ChargedRefusal(old(manager.accounts), manager.accounts, id, refusal, end, clock.Last())
    {
      end := Charge(id, decision, retry);
      RefusalCharged(old(manager.accounts), id, refusal, decision, end, clock.Last());
    }

    /** or with what the reply means. */
    method ChargeReply(id: string, ghost status: int, ghost body: Body, decision: Decision, retry: RetryDecision, ghost from: nat)
      returns (end: AttemptEnd)
      requires DistinctIds(manager.accounts) && Found(manager.accounts, id) && from <= clock.readings
      requires Graded(decision, status, body, retry.exclude, clock.at, from, clock.readings)
      modifies manager, clock
      ensures clock.readings == old(clock.readings) + 1 && !end.Won?
      ensures Ended(old(manager.accounts), old(manager.stats), manager.accounts, manager.stats, id, end, clock.Last())
      ensures Charged(old(manager.accounts), manager.accounts, id, status, body, end, clock.at, from, clock.readings)
    {
      end := Charge(id, decision, retry);
      ReplyCharged(old(manager.accounts), id, status, body, decision, end, clock.at, from, old(clock.readings));
    }

    /** The end of the attempt that a failure brings about. */
    method Charge(id: string, decision: Decision, retry: RetryDecision) returns (end: AttemptEnd)
      requires DistinctIds(manager.accounts) && (decision.class_ == QuotaCooldown ==> decision.cooldown >= 0)
      modifies manager, clock
      ensures clock.readings == old(clock.readings) + 1
      ensures Ended(old(manager.accounts), old(manager.stats), manager.accounts, manager.stats, id, end, clock.Last())
      ensures end == if decision.class_ == RequestShape then Stopped(decision.status) else Failed(decision.status, retry.exclude)
      ensures manager.accounts == Update(old(manager.accounts), id, a => AfterFailure(a, decision, clock.at(old(clock.readings))))
    {
      if decision.class_ == RequestShape {
        ApplyFailure(id, decision);
        ShapeChangesNothing(old(manager.accounts), id, decision, clock.Last());
        manager.RecordRequestFailure();
        end := Stopped(decision.status);
      } else {
        end := Fail(id, decision, retry);
      }
    }

    /** One round of the inner loop: the account is asked, and its reply judged. */
    method Ask(id: string, recovered: bool) returns (again: bool, end: AttemptEnd)
      requires DistinctIds(manager.accounts) && Found(manager.accounts, id)
      modifies manager, clock, this`sends, this`authCalls
      ensures sends == old(sends) + 1 && authCalls == old(authCalls) + if Asks(upstream(old(sends)), recovered) then 1 else 0
      ensures old(clock.readings) <= clock.readings && (!again ==> old(clock.readings) < clock.readings)
      ensures again <==> Asks(upstream(old(sends)), recovered) && auth(old(authCalls)).refusal.None?
      ensures again ==> manager.accounts == Refreshed(old(manager.accounts), id, auth(old(authCalls))) && manager.stats == old(manager.stats)
      ensures again ==> Touched(old(manager.accounts), manager.accounts, id)
      ensures !again ==> Ended(old(manager.accounts), old(manager.stats), manager.accounts, manager.stats, id, end, clock.Last())
      ensures !again ==> Rounded(old(manager.accounts), manager.accounts, id, upstream(old(sends)), auth(old(authCalls)), recovered, end,
                                 clock.at, old(clock.readings), clock.readings)
    {
      var reply := upstream(sends);
      sends := sends + 1;
      if reply.Answered? && !(200 <= reply.status < 300) {
        again, end := Refused(id, reply.status, reply.body, recovered);
      } else {
        again := false;
        end := Concluded(id, reply);
      }
    }

    /** The inner loop: one account, asked until it answers or fails. */
    method TryAccount(id: string, encodes: bool) returns (end: AttemptEnd)
      requires DistinctIds(manager.accounts) && IndexOf(manager.accounts, id) != -1
      modifies manager, clock, this`sends, this`authCalls
      ensures old(sends) <= sends <= old(sends) + 2 && old(authCalls) <= authCalls <= old(authCalls) + 1
      ensures old(clock.readings) <= clock.readings && (end.Failed? ==> old(clock.readings) < clock.readings)
      ensures !encodes ==> end == Stopped(400) && sends == old(sends) && manager.accounts == old(manager.accounts)
      ensures encodes ==> Tried(old(manager.accounts), manager.accounts, id, upstream(old(sends)), upstream(old(sends) + 1), auth(old(authCalls)),
                                sends - old(sends), authCalls - old(authCalls), end, clock.at, old(clock.readings), clock.readings)
      ensures Ended(old(manager.accounts), old(manager.stats), manager.accounts, manager.stats, id, end, clock.Last())
      ensures EndsWith(end, encodes, old(sends), sends, upstream)
    {
      FoundIs(manager.accounts, id);
      TouchedSame(manager.accounts, id);
      ghost var first, reply := upstream(sends), auth(authCalls);
      var recovered := false;
      while true
        invariant Touched(old(manager.accounts), manager.accounts, id) && manager.stats == old(manager.stats)
        invariant sends == old(sends) + (if recovered then 1 else 0) && (recovered ==> encodes)
        invariant authCalls == old(authCalls) + if recovered then 1 else 0
        invariant old(clock.readings) <= clock.readings
        invariant recovered ==> Asks(first, false) && reply.refusal.None?
        invariant manager.accounts == if recovered then Refreshed(old(manager.accounts), id, reply) else old(manager.accounts)
        decreases !recovered
      {
        if !encodes {
          manager.RecordRequestFailure();
          return Stopped(400);
        }
        ghost var touched, read, last := manager.accounts, clock.readings, auth(authCalls);
        TouchedFound(old(manager.accounts), touched, id);
        var again;
        again, end := Ask(id, recovered);
        if !again {
          EndedAfter(old(manager.accounts), touched, old(manager.stats), manager.accounts, manager.stats, id, end, clock.Last());
          RoundsTried(old(manager.accounts), touched, manager.accounts, id, upstream, old(sends), reply, last, recovered, end,
                      clock.at, old(clock.readings), read, clock.readings);
          return;
        }
        TouchedTwice(old(manager.accounts), touched, manager.accounts, id);
        recovered := true;
      }
    }

    /** The branches for a failed transport, a stream that breaks off or is
        empty, and a completion. */
    method Concluded(id: string, reply: Reply) returns (end: AttemptEnd)
      requires DistinctIds(manager.accounts) && Found(manager.accounts, id) && (reply.Answered? ==> 200 <= reply.status < 300)
      modifies manager, clock
      ensures clock.readings == old(clock.readings) + 1
      ensures Ended(old(manager.accounts), old(manager.stats), manager.accounts, manager.stats, id, end, clock.Last())
      ensures Settled(old(manager.accounts), manager.accounts, id, reply, end, clock.at, old(clock.readings), clock.readings)
    {
      var outcome := if reply.TransportError? then Unreadable else reply.body.outcome;
      if outcome.Unreadable? {
        end := Unserved(id, TRANSPORT);
        ConcludedFailed(old(manager.accounts), manager.accounts, id, reply, end, clock.at, old(clock.readings));
      } else if !HasVisibleOutput(outcome) {
        end := Unserved(id, EMPTY);
        ConcludedFailed(old(manager.accounts), manager.accounts, id, reply, end, clock.at, old(clock.readings));
      } else {
        end := Served(id, outcome.tokens);
        ConcludedWon(old(manager.accounts), manager.accounts, id, reply, end, clock.at, old(clock.readings));
      }
    }

    method Unserved(id: string, failure: Decision) returns (end: AttemptEnd)
      requires DistinctIds(manager.accounts) && Found(manager.accounts, id) && failure in [TRANSPORT, EMPTY]
      modifies manager, clock
      ensures clock.readings == old(clock.readings) + 1 && end == Failed(502, true)
      ensures Ended(old(manager.accounts), old(manager.stats), manager.accounts, manager.stats, id, end, clock.Last())
      ensures manager.accounts == With(old(manager.accounts), id, FailedTransiently(Called(old(manager.accounts), id), clock.Last()))
    {
      ghost var now := clock.at(clock.readings);
      UpdateAt(manager.accounts, id, a => AfterFailure(a, failure, now));
      end := Fail(id, failure, Decide(AttemptResult(failure.status, failure, false, false)));
    }

    method Served(id: string, tokens: Tokens) returns (end: AttemptEnd)
      requires DistinctIds(manager.accounts) && Found(manager.accounts, id)
      modifies manager, clock
      ensures clock.readings == old(clock.readings) + 1 && end == Won(tokens)
      ensures Ended(old(manager.accounts), old(manager.stats), manager.accounts, manager.stats, id, end, clock.Last())
      ensures manager.accounts == With(old(manager.accounts), id, Succeeded(Called(old(manager.accounts), id), tokens, clock.Last(), true))
    {
      var t := clock.Now();
      SuccessCredits(manager.accounts, id, tokens, t, true);
      UpdateAt(manager.accounts, id, a => Succeeded(a, tokens, t, true));
      manager.MarkSuccess(id, tokens, t, true);
      end := Won(tokens);
    }

    /** One turn of the outer loop: the token is checked first. */
    method Attempt(id: string, encodes: bool) returns (end: AttemptEnd)
      requires DistinctIds(manager.accounts) && IndexOf(manager.accounts, id) != -1
      modifies manager, clock, this`sends, this`authCalls
      ensures old(sends) <= sends <= old(sends) + 2 && old(authCalls) <= authCalls <= old(authCalls) + 2
      ensures old(clock.readings) <= clock.readings && (end.Failed? ==> old(clock.readings) < clock.readings)
      ensures Ended(old(manager.accounts), old(manager.stats), manager.accounts, manager.stats, id, end, clock.Last())
      ensures EndsWith(end, encodes, old(sends), sends, upstream)
      ensures Attempted(old(manager.accounts), manager.accounts, id, encodes, upstream, old(sends), sends, auth, old(authCalls), authCalls, end,
                        clock.at, old(clock.readings), clock.readings)
    {
      FoundIs(manager.accounts, id);
      var refusal := Authenticate(id);
      TouchedFound(old(manager.accounts), manager.accounts, id);
      end := Proceed(id, encodes, refusal, old(manager.accounts));
      FirstChecked(old(manager.accounts), manager.accounts, id, encodes, upstream, old(sends), sends, auth, old(authCalls), authCalls, end,
                   clock.at, old(clock.readings), clock.readings);
    }

    /** The attempt after the token was checked. */
    method Proceed(id: string, encodes: bool, refusal: Option<Signals>, ghost first: seq<Account>) returns (end: AttemptEnd)
      requires DistinctIds(manager.accounts) && Found(manager.accounts, id) && Touched(first, manager.accounts, id)
      modifies manager, clock, this`sends, this`authCalls
      ensures old(sends) <= sends <= old(sends) + 2 && old(authCalls) <= authCalls <= old(authCalls) + 1
      ensures old(clock.readings) <= clock.readings && (end.Failed? ==> old(clock.readings) < clock.readings)
      ensures Ended(first, old(manager.stats), manager.accounts, manager.stats, id, end, clock.Last())
      ensures EndsWith(end, encodes, old(sends), sends, upstream)
      ensures Proceeded(old(manager.accounts), manager.accounts, id, encodes, refusal, upstream, old(sends), sends, auth, old(authCalls), authCalls, end,
                        clock.at, old(clock.readings), clock.readings)
    {
      ghost var before, stats := manager.accounts, manager.stats;
      if refusal.Some? {
        end := Unauthenticated(id, refusal.value);
      } else {
        end := TryAccount(id, encodes);
      }
      EndedAfter(first, before, stats, manager.accounts, manager.stats, id, end, clock.Last());
    }

    method Unauthenticated(id: string, refusal: Signals) returns (end: AttemptEnd)
      requires DistinctIds(manager.accounts) && Found(manager.accounts, id)
      modifies manager, clock
      ensures clock.readings == old(clock.readings) + 1 && end.Failed? && end.exclude
      ensures Ended(old(manager.accounts), old(manager.stats), manager.accounts, manager.stats, id, end, clock.Last())
      ensures Fared(old(manager.accounts), manager.accounts, id, 401, refusal, end, clock.Last(), HOUR)
    {
      var decision := ClassifyHttp(401, refusal);
      end := Fail(id, decision, RetryDecision(true, false, true, decision.status));
      FaredWhen(old(manager.accounts), id, 401, refusal, decision, end, clock.Last());
    }

    /** The pick of a turn: whoever it is, if it was picked before, a cooldown
        has lapsed. */
    method Pick(excluded: set<string>, ghost first: seq<Account>, ghost picks: seq<string>, ghost waits: seq<Wait>)
      returns (id: Option<string>)
      requires OnTrack(first, manager.accounts, picks, excluded, waits) && pool.current < Pool.UINT64
      modifies pool, clock
      ensures pool.current < Pool.UINT64 && clock.readings == old(clock.readings) + 1
      ensures id.None? ==> AllPicked(manager.accounts, clock.Last(), picks)
      ensures id.Some? ==> id.value in Ids(first) && IndexOf(manager.accounts, id.value) != -1
      ensures id.Some? && id.value in picks ==> Lapsed(waits, clock.Last())
    {
      var candidate := NextAccount(excluded);
      CandidateIs(manager.accounts, pool.current, mode, clock.Last(), excluded);
      if candidate.None? {
        AllExcluded(first, manager.accounts, picks, excluded, waits, clock.Last());
        return None;
      }
      NewPick(first, manager.accounts, picks, excluded, waits, candidate.value, clock.Last());
      id := Some(candidate.value.id);
    }

    /** One turn of the outer loop: a pick, and what came of it. */
    method Turn(encodes: bool, excluded: set<string>, ghost first: seq<Account>, ghost picks: seq<string>, ghost waits: seq<Wait>)
      returns (id: Option<string>, end: AttemptEnd, ghost more: seq<Wait>)
      requires OnTrack(first, manager.accounts, picks, excluded, waits) && pool.current < Pool.UINT64
      modifies manager, pool, clock, this`sends, this`authCalls
      ensures pool.current < Pool.UINT64
      ensures old(sends) <= sends <= old(sends) + 2 && old(clock.readings) < clock.readings
      ensures id.None? ==> manager.accounts == old(manager.accounts) && manager.stats == old(manager.stats) && sends == old(sends)
      ensures id.None? ==> AllPicked(manager.accounts, clock.at(old(clock.readings)), picks)
      ensures id.Some? ==> TurnEnds(first, old(manager.stats), manager.accounts, manager.stats, picks, excluded, waits + more, id.value, end)
      ensures id.Some? ==> NewPicked(clock.at, old(clock.readings), clock.readings, picks, waits, id.value, more)
      ensures id.Some? ==> EndsWith(end, encodes, old(sends), sends, upstream)
    {
      ghost var read := clock.readings;
      id := Pick(excluded, first, picks, waits);
      if id.None? {
        return None, Failed(0, false), [];
      }
      assert clock.Last() == clock.at(read);
      end, more := Use(id.value, encodes, excluded, first, picks, waits);
      PickIsNew(clock.at, read, clock.readings, picks, waits, id.value, more);
    }

    /** The attempt with the account that was picked. */
    method Use(id: string, encodes: bool, ghost excluded: set<string>, ghost first: seq<Account>, ghost picks: seq<string>, ghost waits: seq<Wait>)
      returns (end: AttemptEnd, ghost more: seq<Wait>)
      requires OnTrack(first, manager.accounts, picks, excluded, waits) && id in Ids(first) && IndexOf(manager.accounts, id) != -1
      requires clock.readings > 0
      modifies manager, clock, this`sends, this`authCalls
      ensures old(sends) <= sends <= old(sends) + 2 && old(clock.readings) <= clock.readings
      ensures TurnEnds(first, old(manager.stats), manager.accounts, manager.stats, picks, excluded, waits + more, id, end)
      ensures SetAt(more, id, clock.readings - 1, clock.at(clock.readings - 1))
      ensures EndsWith(end, encodes, old(sends), sends, upstream)
    {
      ghost var before, stats := manager.accounts, manager.stats;
      end := Attempt(id, encodes);
      ghost var last := clock.readings - 1;
      assert clock.Last() == clock.at(last);
      more := WaitsOf(manager.accounts, id, end, last);
      TurnTaken(first, before, stats, manager.accounts, manager.stats, picks, excluded, waits, more, id, end, last, clock.Last());
    }

    /** The outer loop: accounts are picked until one ends the request or none
        is left, watched for a number of turns. Nothing is entered in the books
        while it is still running or when none is left. */
    method TryAccounts(encodes: bool, turns: nat)
      returns (end: Option<AttemptEnd>, running: bool, lastStatus: int, ghost picks: seq<string>, ghost asked: seq<nat>,
               ghost waits: seq<Wait>, ghost over: int)
      requires DistinctIds(manager.accounts) && pool.current < Pool.UINT64
      modifies manager, pool, clock, this`sends, this`authCalls
      ensures pool.current < Pool.UINT64 && old(clock.readings) <= clock.readings
      ensures Picked(old(manager.accounts), picks, asked, sends - old(sends))
      ensures OnceEach(clock.at, old(clock.readings), clock.readings, picks, waits)
      ensures BooksAfter(old(manager.accounts), old(manager.stats), manager.accounts, manager.stats, end, picks)
      ensures running ==> end.None? && |picks| == turns
      ensures end.Some? ==> EndsWith(end.value, encodes, old(sends), sends, upstream)
      ensures end.None? ==> Inconclusive(upstream, old(sends), sends)
      ensures end.None? && !running ==> AllPicked(manager.accounts, over, picks)
    {
      picks, asked, waits, end, running, lastStatus, over := [], [], [], None, false, 0, 0;
      var excluded: set<string> := {};
      var attempt := 0;
      ghost var first := manager.accounts;
      while attempt < turns
        invariant 0 <= attempt <= turns && |picks| == attempt && pool.current < Pool.UINT64
        invariant old(clock.readings) <= clock.readings
        invariant OnTrack(first, manager.accounts, picks, excluded, waits) && manager.stats == old(manager.stats)
        invariant Asked(picks, asked, sends - old(sends))
        invariant OnceEach(clock.at, old(clock.readings), clock.readings, picks, waits)
        invariant old(sends) <= sends && Inconclusive(upstream, old(sends), sends)
      {
        ghost var sent, read := sends, clock.readings;
        over := clock.at(clock.readings);
        var id, ended;
        ghost var more;
        id, ended, more := Turn(encodes, excluded, first, picks, waits);
        if id.None? {
          Gathered(first, old(manager.stats), manager.accounts, picks, excluded, waits);
          return;
        }
        attempt := attempt + 1;
        EndsLater(ended, encodes, old(sends), sent, sends, upstream);
        ghost var extra: nat := sends - sent;
        AskedNext(picks, asked, sent - old(sends), id.value, extra);
        NextOnce(clock.at, old(clock.readings), read, clock.readings, picks, waits, id.value, more);
        picks, asked, waits := picks + [id.value], asked + [extra], waits + more;
        if !ended.Failed? {
          end := Some(ended);
          return;
        }
        if ended.exclude {
          excluded := excluded + {id.value};
        }
        lastStatus := ended.status;
      }
      Gathered(first, old(manager.stats), manager.accounts, picks, excluded, waits);
      running := true;
    }

    method Snapshot() returns (ready: nat, ghost now: int)
      modifies clock
      ensures now == clock.at(old(clock.readings)) && clock.readings == old(clock.readings) + 1
      ensures ready == Pool.Count("codex", now, manager.accounts).ready
      ensures ready == 0 ==> AllPicked(manager.accounts, now, [])
    {
      CodexTarget();
      var t := clock.Now();
      var snapshot := Pool.AvailabilitySnapshot(manager.accounts, "codex", t);
      NoneReady(manager.accounts, t);
      ready, now := snapshot.ready, t;
    }

    /** The request once some account is ready: the outer loop, and its end. */
    method Serve(encodes: bool, turns: nat)
      returns (answer: Option<Answer>, ghost picks: seq<string>, ghost asked: seq<nat>, ghost waits: seq<Wait>, ghost over: Option<int>)
      requires DistinctIds(manager.accounts) && pool.current < Pool.UINT64
      modifies manager, pool, clock, this`sends, this`authCalls
      ensures pool.current < Pool.UINT64 && old(clock.readings) <= clock.readings
      ensures Picked(old(manager.accounts), picks, asked, sends - old(sends))
      ensures OnceEach(clock.at, old(clock.readings), clock.readings, picks, waits)
      ensures Booked(old(manager.accounts), old(manager.stats), manager.accounts, manager.stats, answer, picks)
      ensures answer.None? ==> |picks| == turns
      ensures over.None? ==> Concludes(answer, encodes, old(sends), sends, upstream)
      ensures answer.None? || over.Some? ==> Inconclusive(upstream, old(sends), sends)
      ensures over.Some? ==> GivenUp(answer, manager.accounts, over.value, picks, clock.Last())
    {
      ghost var first, stats := manager.accounts, manager.stats;
      var end, running, lastStatus;
      ghost var gaveUp;
      end, running, lastStatus, picks, asked, waits, gaveUp := TryAccounts(encodes, turns);
      over := None;
      if end.Some? {
        var ended := if end.value.Won? then Success(end.value.tokens) else Failure(end.value.status);
        AnswerEntered(first, stats, manager.accounts, manager.stats, end.value, ended, picks);
        Concluding(end.value, ended, encodes, old(sends), sends, upstream);
        answer := Some(ended);
      } else if running {
        answer := None;
      } else {
        UntouchedEntered(first, stats, manager.accounts);
        OnceLonger(clock.at, old(clock.readings), old(clock.readings), clock.readings, clock.readings + 1, picks, waits);
        lastStatus := GiveUp(lastStatus);
        answer, over := Some(Failure(lastStatus)), Some(gaveUp);
      }
    }

    /** Complete, watched for a number of turns; while there is no answer yet the
        books are as they were. Every pick is asked at most twice and the request
        is entered in the books once, the account that was asked last being
        credited with a success. As long as the clock passes no cooldown that the
        request sets, every account is picked at most once, so that one turn more
        than there are accounts is enough. It is given up only when the request
        itself is refused or every ready account was picked. */
    method Complete(model: string, encodes: bool, turns: nat)
      returns (answer: Option<Answer>, ghost picks: seq<string>, ghost asked: seq<nat>, ghost waits: seq<Wait>, ghost over: Option<int>)
      requires DistinctIds(manager.accounts) && pool.current < Pool.UINT64
      modifies manager, pool, clock, this`sends, this`authCalls
      ensures pool.current < Pool.UINT64 && old(clock.readings) <= clock.readings
      ensures Picked(old(manager.accounts), picks, asked, sends - old(sends))
      ensures OnceEach(clock.at, old(clock.readings), clock.readings, picks, waits)
      ensures PassesNone(clock.at, old(clock.readings), clock.readings, waits) && turns > |Ids(old(manager.accounts))| ==> answer.Some?
      ensures Booked(old(manager.accounts), old(manager.stats), manager.accounts, manager.stats, answer, picks)
      ensures Blank(model) ==> answer == Some(Failure(400)) && picks == []
      ensures !Blank(model) && over.None? ==> Concludes(answer, encodes, old(sends), sends, upstream)
      ensures answer.None? || over.Some? ==> Inconclusive(upstream, old(sends), sends)
      ensures over.Some? ==> GivenUp(answer, manager.accounts, over.value, picks, clock.Last())
    {
      ghost var first, stats := manager.accounts, manager.stats;
      UntouchedEntered(first, stats, first);
      if Blank(model) {
        manager.RecordRequestFailure();
        return Some(Failure(400)), [], [], [], None;
      }
      var ready;
      ghost var now;
      ready, now := Snapshot();
      if ready == 0 {
        manager.RecordRequestFailure();
        return Some(Failure(503)), [], [], [], Some(now);
      }
      ghost var from := clock.readings;
      answer, picks, asked, waits, over := Serve(encodes, turns);
      OnceLonger(clock.at, old(clock.readings), from, clock.readings, clock.readings, picks, waits);
      OnceFew(clock.at, old(clock.readings), clock.readings, first, picks, waits);
    }

    /** The end of a request that no account could serve. */
    method GiveUp(lastStatus: int) returns (status: int)
      modifies manager`stats, clock
      ensures clock.readings == old(clock.readings) + 1
      ensures manager.stats == Recorded(old(manager.stats), None)
      ensures status == if lastStatus == 0 || Pool.Count("codex", clock.Last(), manager.accounts).ready == 0 then 503 else lastStatus
    {
      var ready;
      ghost var now;
      ready, now := Snapshot();
      status := if ready == 0 || lastStatus == 0 then 503 else lastStatus;
      manager.RecordRequestFailure();
    }
  }

  // ---------- what a reply does ----------

  /** A refresh of the token is asked for after a 401 or 403, once. */
  predicate AsksRefresh(status: int, recovered: bool) {
    status in AUTH && !recovered
  }

  lemma AskedWhen(status: int, d: Decision, s: Signals, recovered: bool)
    requires d == ClassifyHttp(status, s).(cooldown := d.cooldown)
    ensures Decide(AttemptResult(status, d, recovered, false)).refreshAuth <==> AsksRefresh(status, recovered)
    ensures !AsksRefresh(status, recovered) ==> (Decide(AttemptResult(status, d, recovered, false)).exclude <==> Excludes(status, s))
  {
    RefreshAsked(AttemptResult(status, d, recovered, false));
    if !AsksRefresh(status, recovered) {
      ExcludedWhen(AttemptResult(status, d, recovered, false));
    }
  }

  /** How a reply that is not a 2xx, or a refused refresh, leaves the account and
      the request: a blocked account is banned, a refused token waits for a login,
      an exhausted quota waits for what is left of it, a malformed request is
      answered with no account changed, and anything else is a transient failure. */
  ghost predicate Fared(before: seq<Account>, after: seq<Account>, id: string, status: int, s: Signals, end: AttemptEnd, now: int, left: int) {
    Found(before, id) &&
    var a := Called(before, id);
    if s.blocked then
      end.Failed? && end.status == 401 && after == With(before, id, Banned(a))
    else if status in {401, 403} && (s.refreshable || !s.quotaWords) then
      end.Failed? && end.status == 401 && after == With(before, id, NeedsLogin(a, now + 30))
    else if status == 429 || s.quotaWords then
      end.Failed? && end.status == 429 && left >= 0 && after == With(before, id, QuotaExhausted(a, now + left))
    else if status in {400, 422} || s.shapeWords then
      end == Stopped(502) && after == before
    else
      end.Failed? && end.status == 502 && after == With(before, id, FailedTransiently(a, now))
  }

  /** The account is not asked again for this request after a 429, after a failure
      of the server, and after a refused token that asks for a refresh. */
  predicate Excludes(status: int, s: Signals) {
    status == 429 || ServerFailed(status, s) || (!s.blocked && status in {401, 403} && s.refreshable)
  }

  ghost predicate Graded(d: Decision, status: int, body: Body, exclude: bool, at: nat -> int, from: nat, to: nat) {
    && d == ClassifyHttp(status, body.signals).(cooldown := d.cooldown) && (exclude <==> Excludes(status, body.signals))
    && if d.class_ == QuotaCooldown then IsQuotaCooldown(body, d.cooldown, at, from, to) && d.cooldown >= 0
       else d == ClassifyHttp(status, body.signals)
  }

  ghost predicate GradedRefusal(d: Decision, refusal: Signals, exclude: bool) {
    d == ClassifyHttp(401, refusal) && (exclude <==> !refusal.blocked && (refusal.refreshable || refusal.quotaWords))
  }

  lemma RefusalCharged(before: seq<Account>, id: string, refusal: Signals, d: Decision, end: AttemptEnd, now: int)
    requires Found(before, id) && end.Failed? && end.status == d.status && GradedRefusal(d, refusal, end.exclude)
    ensures ChargedRefusal(before, Update(before, id, a => AfterFailure(a, d, now)), id, refusal, end, now)
  {
    FaredWhen(before, id, 401, refusal, d, end, now);
  }

  lemma ReplyCharged(before: seq<Account>, id: string, status: int, body: Body, d: Decision, end: AttemptEnd, at: nat -> int, from: nat, read: nat)
    requires Found(before, id) && from <= read
    requires if d.class_ == RequestShape then end == Stopped(d.status) else end.Failed? && end.status == d.status
    requires Graded(d, status, body, if end.Failed? then end.exclude else Excludes(status, body.signals), at, from, read)
    ensures Charged(before, Update(before, id, a => AfterFailure(a, d, at(read))), id, status, body, end, at, from, read + 1)
  {
    var after := Update(before, id, a => AfterFailure(a, d, at(read)));
    FaredWhen(before, id, status, body.signals, d, end, at(read));
    if d.class_ == QuotaCooldown {
      assert QuotaRead(body, d.cooldown, at, from, read + 1);
    }
    assert ChargedFor(before, after, id, status, body, end, at, from, read + 1, at(read), d.cooldown);
  }

  /** The reply asks for a refresh. */
  predicate Asks(reply: Reply, recovered: bool) {
    reply.Answered? && AsksRefresh(reply.status, recovered)
  }

  /** A refused token ends the attempt without a request. */
  ghost predicate Proceeded(before: seq<Account>, after: seq<Account>, id: string, encodes: bool, refusal: Option<Signals>, upstream: nat -> Reply,
                            start: nat, sends: nat, auth: nat -> AuthReply, called: nat, calls: nat, end: AttemptEnd, at: nat -> int, from: nat, to: nat) {
    match refusal
    case Some(signals) =>
      && sends == start && calls == called && to > 0 && end.Failed? && end.exclude
      && Fared(before, after, id, 401, signals, end, at(to - 1), HOUR)
    case None =>
      encodes ==> Tried(before, after, id, upstream(start), upstream(start + 1), auth(called), sends - start, calls - called, end, at, from, to)
  }

  /** The token is checked first, which may change the account. */
  ghost predicate Attempted(before: seq<Account>, after: seq<Account>, id: string, encodes: bool, upstream: nat -> Reply, start: nat, sends: nat,
                            auth: nat -> AuthReply, called: nat, calls: nat, end: AttemptEnd, at: nat -> int, from: nat, to: nat) {
    var refusal, next := auth(called).refusal, called + 1;
    exists checked ::
      checked == Refreshed(before, id, auth(called)) &&
      Proceeded(checked, after, id, encodes, refusal, upstream, start, sends, auth, next, calls, end, at, from, to)
  }

  lemma FirstChecked(before: seq<Account>, after: seq<Account>, id: string, encodes: bool, upstream: nat -> Reply, start: nat, sends: nat,
                     auth: nat -> AuthReply, called: nat, calls: nat, end: AttemptEnd, at: nat -> int, from: nat, to: nat)
    requires Proceeded(Refreshed(before, id, auth(called)), after, id, encodes, auth(called).refusal, upstream, start, sends, auth, called + 1, calls,
                       end, at, from, to)
    ensures Attempted(before, after, id, encodes, upstream, start, sends, auth, called, calls, end, at, from, to)
  {
  }

  /** A round that ended the attempt: a refresh was asked for and refused, or the
      reply settled it. */
  ghost predicate Rounded(before: seq<Account>, after: seq<Account>, id: string, reply: Reply, auth: AuthReply, recovered: bool,
                          end: AttemptEnd, at: nat -> int, from: nat, to: nat) {
    if Asks(reply, recovered) then
      auth.refusal.Some? && from < to && ChargedRefusal(Refreshed(before, id, auth), after, id, auth.refusal.value, end, at(to - 1))
    else Settled(before, after, id, reply, end, at, from, to)
  }

  lemma ConcludedFailed(before: seq<Account>, after: seq<Account>, id: string, reply: Reply, end: AttemptEnd, at: nat -> int, read: nat)
    requires Found(before, id) && after == With(before, id, FailedTransiently(Called(before, id), at(read))) && end == Failed(502, true)
    requires reply.Answered? ==> 200 <= reply.status < 300 && !HasVisibleOutput(reply.body.outcome)
    ensures Settled(before, after, id, reply, end, at, read, read + 1)
  {
    FulfilsWhen(reply);
  }

  lemma ConcludedWon(before: seq<Account>, after: seq<Account>, id: string, reply: Reply, end: AttemptEnd, at: nat -> int, read: nat)
    requires reply.Answered? && 200 <= reply.status < 300 && HasVisibleOutput(reply.body.outcome) && end == Won(reply.body.outcome.tokens)
    requires Found(before, id) && after == With(before, id, Succeeded(Called(before, id), end.tokens, at(read), true))
    ensures Settled(before, after, id, reply, end, at, read, read + 1)
  {
    FulfilsWhen(reply);
  }

  lemma SettledEarlier(before: seq<Account>, after: seq<Account>, id: string, reply: Reply, end: AttemptEnd, at: nat -> int, from: nat, mid: nat, to: nat)
    requires from <= mid && Settled(before, after, id, reply, end, at, mid, to)
    ensures Settled(before, after, id, reply, end, at, from, to)
  {
    if reply.Answered? && !(200 <= reply.status < 300) {
      var left :| ChargedFor(before, after, id, reply.status, reply.body, end, at, mid, to, at(to - 1), left);
      if Exhausted(reply.status, reply.body.signals) {
        var r :| mid <= r < to && IsQuotaCooldown(reply.body, left, at, r, to - 1);
        assert QuotaRead(reply.body, left, at, from, to);
      }
      assert ChargedFor(before, after, id, reply.status, reply.body, end, at, from, to, at(to - 1), left);
    }
  }

  /** What the reply that settled an attempt was. */
  lemma SettledBy(before: seq<Account>, after: seq<Account>, id: string, reply: Reply, end: AttemptEnd, at: nat -> int, from: nat, to: nat)
    requires Settled(before, after, id, reply, end, at, from, to)
    ensures end.Won? ==> Answers(reply, end.tokens)
    ensures end.Stopped? ==> end.status == 502 && RejectsShape(reply)
    ensures end.Failed? ==> !Conclusive(reply)
  {
  }

  lemma RoundEnds(before: seq<Account>, after: seq<Account>, id: string, reply: Reply, auth: AuthReply, recovered: bool, end: AttemptEnd,
                  at: nat -> int, from: nat, to: nat)
    requires Rounded(before, after, id, reply, auth, recovered, end, at, from, to)
    ensures end.Won? ==> Answers(reply, end.tokens)
    ensures end.Stopped? ==> end.status == 502 && RejectsShape(reply)
    ensures end.Failed? ==> !Conclusive(reply)
  {
    if !Asks(reply, recovered) {
      SettledBy(before, after, id, reply, end, at, from, to);
    }
  }

  /** The last round, seen from the start of the attempt. */
  lemma RoundsTried(before: seq<Account>, touched: seq<Account>, after: seq<Account>, id: string, upstream: nat -> Reply, start: nat, auth: AuthReply,
                    last: AuthReply, recovered: bool, end: AttemptEnd, at: nat -> int, from: nat, mid: nat, to: nat)
    requires from <= mid && touched == if recovered then Refreshed(before, id, auth) else before
    requires recovered ==> Asks(upstream(start), false) && auth.refusal.None?
    requires var n: nat := start + if recovered then 1 else 0; Rounded(touched, after, id, upstream(n), last, recovered, end, at, mid, to)
    requires !recovered ==> last == auth
    ensures var n: nat := start + if recovered then 1 else 0;
            Tried(before, after, id, upstream(start), upstream(start + 1), auth, n + 1 - start, if Asks(upstream(start), false) then 1 else 0,
                  end, at, from, to)
    ensures var n: nat := start + if recovered then 1 else 0; EndsWith(end, true, start, n + 1, upstream)
  {
    var n: nat := start + if recovered then 1 else 0;
    RoundEnds(touched, after, id, upstream(n), last, recovered, end, at, mid, to);
    if !Asks(upstream(n), recovered) {
      SettledEarlier(touched, after, id, upstream(n), end, at, from, mid, to);
    }
    if Asks(upstream(start), false) {
      assert TriedAgain(Refreshed(before, id, auth), after, id, upstream(start + 1), auth, n + 1 - start, 1, end, at, from, to);
    } else {
      assert Settled(before, after, id, upstream(start), end, at, from, to);
    }
  }

  lemma TouchedFound(before: seq<Account>, after: seq<Account>, id: string)
    requires Touched(before, after, id) && Found(before, id)
    ensures Found(after, id)
  {
    TouchedFinds(before, after, id);
    FoundIs(after, id);
  }

  lemma TouchedSame(accounts: seq<Account>, id: string)
    ensures Touched(accounts, accounts, id)
  {
  }

  lemma FaredWhen(before: seq<Account>, id: string, status: int, s: Signals, d: Decision, end: AttemptEnd, now: int)
    requires Found(before, id) && d == ClassifyHttp(status, s).(cooldown := d.cooldown)
    requires if d.class_ == QuotaCooldown then d.cooldown >= 0 else d == ClassifyHttp(status, s)
    requires if d.class_ == RequestShape then end == Stopped(502) else end.Failed? && end.status == d.status
    ensures Fared(before, Update(before, id, a => AfterFailure(a, d, now)), id, status, s, end, now, d.cooldown)
  {
    UpdateAt(before, id, a => AfterFailure(a, d, now));
    if d.class_ == RequestShape {
      ShapeChangesNothing(before, id, d, now);
    }
  }

  /** What a refresh of the token leaves of the accounts. */
  function Refreshed(accounts: seq<Account>, id: string, reply: AuthReply): seq<Account> {
    if reply.change.None? || !Found(accounts, id) then accounts
    else With(accounts, id, Authenticated(Called(accounts, id), reply.change.value))
  }

  /** Only the account with the id changes, to what the check found. */
  lemma RefreshedMeans(accounts: seq<Account>, id: string, reply: AuthReply, k: nat)
    requires DistinctIds(accounts) && k < |accounts|
    ensures |Refreshed(accounts, id, reply)| == |accounts|
    ensures Refreshed(accounts, id, reply)[k]
            == if accounts[k].id == id && reply.change.Some? then Authenticated(accounts[k], reply.change.value) else accounts[k]
  {
    IndexOfProps(accounts, id);
  }

  ghost predicate QuotaRead(body: Body, left: int, at: nat -> int, from: nat, to: nat) {
    to > 0 && var last: nat := to - 1; exists r :: from <= r < to && IsQuotaCooldown(body, left, at, r, last)
  }

  /** A reply that is not a 2xx ended the attempt at the last reading before `to`. */
  ghost predicate Charged(before: seq<Account>, after: seq<Account>, id: string, status: int, body: Body, end: AttemptEnd, at: nat -> int, from: nat, to: nat) {
    && from < to
    && (end.Failed? ==> (end.exclude <==> Excludes(status, body.signals)))
    && var now := at(to - 1); exists left :: ChargedFor(before, after, id, status, body, end, at, from, to, now, left)
  }

  ghost predicate ChargedFor(before: seq<Account>, after: seq<Account>, id: string, status: int, body: Body, end: AttemptEnd, at: nat -> int,
                             from: nat, to: nat, now: int, left: int) {
    && Fared(before, after, id, status, body.signals, end, now, left)
    && (Exhausted(status, body.signals) ==> QuotaRead(body, left, at, from, to))
  }

  /** A refused refresh did; it is judged like a 401. */
  ghost predicate ChargedRefusal(before: seq<Account>, after: seq<Account>, id: string, refusal: Signals, end: AttemptEnd, now: int) {
    && Fared(before, after, id, 401, refusal, end, now, HOUR)
    && (end.Failed? ==> (end.exclude <==> !refusal.blocked && (refusal.refreshable || refusal.quotaWords)))
  }

  /** The reply ended the attempt: it was refused, it answered, or the transport
      or the stream failed. */
  ghost predicate Settled(before: seq<Account>, after: seq<Account>, id: string, reply: Reply, end: AttemptEnd, at: nat -> int, from: nat, to: nat) {
    if reply.Answered? && !(200 <= reply.status < 300) then Charged(before, after, id, reply.status, reply.body, end, at, from, to)
    else
      && to > 0 && Found(before, id)
      && if Fulfils(reply) then
           end.Won? && Answers(reply, end.tokens) && after == With(before, id, Succeeded(Called(before, id), end.tokens, at(to - 1), true))
         else
           end == Failed(502, true) && after == With(before, id, FailedTransiently(Called(before, id), at(to - 1)))
  }

  /** By the status alone, when the message gives nothing away: 400 and 422 end the
      request with no account changed; after 500, 502, 503 and 504 the account is
      excluded with the transient back-off; after 429 until its quota is reset. */
  lemma PlainStatuses(before: seq<Account>, after: seq<Account>, id: string, status: int, body: Body, end: AttemptEnd, at: nat -> int, from: nat, to: nat)
    requires Settled(before, after, id, Answered(status, body), end, at, from, to) && body.signals == Signals(false, false, false, false)
    ensures status in {400, 422} ==> end == Stopped(502) && after == before
    ensures status in {500, 502, 503, 504} ==>
              end == Failed(502, true) && Found(before, id) && after == With(before, id, FailedTransiently(Called(before, id), at(to - 1)))
    ensures status == 429 ==>
              && end == Failed(429, true) && Found(before, id)
              && exists left :: QuotaRead(body, left, at, from, to) && after == With(before, id, QuotaExhausted(Called(before, id), at(to - 1) + left))
  {
  }

  /** A whole attempt: a 401 or 403 asks for one refresh, and if that is granted the
      account is asked a second time; any other first reply settles it. */
  ghost predicate Tried(before: seq<Account>, after: seq<Account>, id: string, first: Reply, second: Reply, reply: AuthReply,
                        sent: int, calls: int, end: AttemptEnd, at: nat -> int, from: nat, to: nat) {
    var asks := first.Answered? && first.status in {401, 403};
    exists mid ::
      && mid == (if asks then Refreshed(before, id, reply) else before)
      && if asks then TriedAgain(mid, after, id, second, reply, sent, calls, end, at, from, to)
         else sent == 1 && calls == 0 && Settled(mid, after, id, first, end, at, from, to)
  }

  ghost predicate TriedAgain(mid: seq<Account>, after: seq<Account>, id: string, second: Reply, reply: AuthReply, sent: int, calls: int,
                             end: AttemptEnd, at: nat -> int, from: nat, to: nat) {
    && calls == 1
    && if reply.refusal.None? then sent == 2 && Settled(mid, after, id, second, end, at, from, to)
       else sent == 1 && from < to && ChargedRefusal(mid, after, id, reply.refusal.value, end, at(to - 1))
  }

  ghost predicate Unentered(before: seq<Account>, stats: Stats, after: seq<Account>, stats': Stats) {
    stats' == stats && Moved(before, after, None) && DistinctIds(after)
  }

  lemma AnswerEntered(first: seq<Account>, stats: Stats, accounts: seq<Account>, stats': Stats, end: AttemptEnd, answer: Answer,
                      picks: seq<string>)
    requires BooksAfter(first, stats, accounts, stats', Some(end), picks)
    requires AsEnd(answer) == end
    ensures Entered(first, stats, accounts, stats', Winner(answer))
    ensures answer.Success? ==> picks != [] && Credited(first, accounts, picks[|picks| - 1], Winner(answer))
  {
  }

  function AsEnd(answer: Answer): AttemptEnd {
    match answer
    case Success(tokens) => Won(tokens)
    case Failure(status) => Stopped(status)
  }

  /** Codex accounts were picked, each pick was asked at most twice, and `sends`
      requests were sent in all. */
  ghost predicate Picked(first: seq<Account>, picks: seq<string>, asked: seq<nat>, sends: int) {
    (forall id :: id in picks ==> id in Ids(first)) && Asked(picks, asked, sends)
  }

  /** The cooldowns are genuine, and if the clock passes none of them, no account
      is picked twice. */
  ghost predicate OnceEach(at: nat -> int, from: nat, to: nat, picks: seq<string>, waits: seq<Wait>) {
    Genuine(at, from, to, picks, waits) && (PassesNone(at, from, to, waits) ==> Distinct(picks))
  }

  ghost predicate NewPicked(at: nat -> int, from: nat, to: nat, picks: seq<string>, waits: seq<Wait>, id: string, more: seq<Wait>) {
    Genuine(at, from, to, [id], more) && (PassesNone(at, from, to, waits) ==> id !in picks)
  }

  lemma OnceLonger(at: nat -> int, before: nat, from: nat, to: nat, after: nat, picks: seq<string>, waits: seq<Wait>)
    requires before <= from <= to <= after && OnceEach(at, from, to, picks, waits)
    ensures OnceEach(at, before, after, picks, waits)
  {
    if PassesNone(at, before, after, waits) {
      assert PassesNone(at, from, to, waits);
    }
  }

  lemma OnceFew(at: nat -> int, from: nat, to: nat, first: seq<Account>, picks: seq<string>, waits: seq<Wait>)
    requires OnceEach(at, from, to, picks, waits) && forall id :: id in picks ==> id in Ids(first)
    ensures PassesNone(at, from, to, waits) ==> |picks| <= |Ids(first)|
  {
    if PassesNone(at, from, to, waits) {
      DistinctFit(picks, Ids(first));
    }
  }

  ghost predicate Asked(picks: seq<string>, asked: seq<nat>, sends: int) {
    |asked| == |picks| && (forall k :: 0 <= k < |asked| ==> asked[k] <= 2) && sends == Total(asked) && sends <= 2 * |picks|
  }

  lemma AskedNext(picks: seq<string>, asked: seq<nat>, sends: int, id: string, more: nat)
    requires Asked(picks, asked, sends) && more <= 2
    ensures Asked(picks + [id], asked + [more], sends + more)
  {
    assert (asked + [more])[..|asked|] == asked;
  }

  /** Every account that was ready at `now` had been picked. */
  ghost predicate AllPicked(accounts: seq<Account>, now: int, picks: seq<string>) {
    forall k :: 0 <= k < |accounts| && Pool.Eligible("codex", now, accounts[k]) ==> accounts[k].id in picks
  }

  ghost predicate BooksAfter(before: seq<Account>, stats: Stats, after: seq<Account>, stats': Stats, end: Option<AttemptEnd>, picks: seq<string>) {
    OnlyOf(before, after, "codex") &&
    match end
    case None => Unentered(before, stats, after, stats')
    case Some(e) =>
      && !e.Failed? && Entered(before, stats, after, stats', if e.Won? then Some(e.tokens) else None)
      && (e.Won? ==> picks != [] && Credited(before, after, picks[|picks| - 1], Some(e.tokens)))
  }

  /** The last reply is what ended the request, and no other could have; after a
      failure, none could. */
  ghost predicate EndsWith(end: AttemptEnd, encodes: bool, before: nat, sends: nat, upstream: nat -> Reply) {
    match end
    case Won(tokens) => sends > before && Answers(upstream(sends - 1), tokens) && Inconclusive(upstream, before, sends - 1)
    case Stopped(status) =>
      || (!encodes && status == 400)
      || (encodes && status == 502 && sends > before && RejectsShape(upstream(sends - 1)) && Inconclusive(upstream, before, sends - 1))
    case Failed(_, _) => Inconclusive(upstream, before, sends)
  }

  /** None of these replies answers the request or says that it is malformed. */
  ghost predicate Inconclusive(upstream: nat -> Reply, from: nat, to: nat) {
    forall k :: from <= k < to ==> !Conclusive(upstream(k))
  }

  lemma EndsLater(end: AttemptEnd, encodes: bool, first: nat, before: nat, sends: nat, upstream: nat -> Reply)
    requires first <= before && Inconclusive(upstream, first, before) && EndsWith(end, encodes, before, sends, upstream)
    ensures EndsWith(end, encodes, first, sends, upstream) && (end.Failed? ==> Inconclusive(upstream, first, sends))
  {
  }

  /** The books after a request: as they were as long as it runs, and one entry
      once it has ended, which credits the account picked last with a success. */
  ghost predicate Booked(before: seq<Account>, stats: Stats, after: seq<Account>, stats': Stats, answer: Option<Answer>, picks: seq<string>) {
    OnlyOf(before, after, "codex") &&
    match answer
    case None => Unentered(before, stats, after, stats')
    case Some(a) =>
      && Entered(before, stats, after, stats', Winner(a))
      && (a.Success? ==> picks != [] && Credited(before, after, picks[|picks| - 1], Winner(a)))
  }

  /** No account was left at `over`; nobody being ready at the end, it is a 503. */
  ghost predicate GivenUp(answer: Option<Answer>, accounts: seq<Account>, over: int, picks: seq<string>, last: int) {
    && answer.Some? && answer.value.Failure? && AllPicked(accounts, over, picks)
    && (Pool.Count("codex", last, accounts).ready == 0 ==> answer == Some(Failure(503)))
  }

  ghost predicate Concludes(answer: Option<Answer>, encodes: bool, before: nat, sends: nat, upstream: nat -> Reply) {
    answer.Some? ==> EndsWith(AsEnd(answer.value), encodes, before, sends, upstream)
  }

  lemma Concluding(end: AttemptEnd, answer: Answer, encodes: bool, before: nat, sends: nat, upstream: nat -> Reply)
    requires EndsWith(end, encodes, before, sends, upstream) && AsEnd(answer) == end
    ensures Concludes(Some(answer), encodes, before, sends, upstream)
  {
  }

  lemma AllExcluded(first: seq<Account>, accounts: seq<Account>, picks: seq<string>, excluded: set<string>, waits: seq<Wait>, now: int)
    requires OnTrack(first, accounts, picks, excluded, waits)
    requires forall k :: 0 <= k < |accounts| && Pool.Eligible("codex", now, accounts[k]) ==> accounts[k].id in excluded
    ensures AllPicked(accounts, now, picks)
  {
  }

  /** What the outer loop keeps: the accounts are the same ones with the same
      books, and whoever was picked is excluded or sidelined. */
  ghost predicate OnTrack(first: seq<Account>, accounts: seq<Account>, picks: seq<string>, excluded: set<string>, waits: seq<Wait>) {
    && DistinctIds(first) && DistinctIds(accounts) && Credited(first, accounts, "", None) && OnlyOf(first, accounts, "codex")
    && (forall id :: id in picks ==> id in Ids(first))
    && (forall id :: id in excluded ==> id in picks)
    && (forall id :: id in picks ==> id in excluded || SidelinedAt(accounts, id, waits))
  }

  /** How a turn that picked `id` ends. */
  ghost predicate TurnEnds(first: seq<Account>, stats: Stats, after: seq<Account>, stats': Stats, picks: seq<string>, excluded: set<string>,
                           waits: seq<Wait>, id: string, end: AttemptEnd) {
    && id in Ids(first)
    && (end.Failed? ==> stats' == stats && OnTrack(first, after, picks + [id], if end.exclude then excluded + {id} else excluded, waits))
    && (!end.Failed? ==> BooksAfter(first, stats, after, stats', Some(end), picks + [id]))
  }

  /** What one turn does to the invariant and to the books. */
  lemma TurnTaken(first: seq<Account>, before: seq<Account>, stats: Stats, after: seq<Account>, stats': Stats, picks: seq<string>,
                  excluded: set<string>, waits: seq<Wait>, more: seq<Wait>, id: string, end: AttemptEnd, reading: nat, now: int)
    requires OnTrack(first, before, picks, excluded, waits) && id in Ids(first)
    requires Ended(before, stats, after, stats', id, end, now) && more == WaitsOf(after, id, end, reading)
    ensures TurnEnds(first, stats, after, stats', picks, excluded, waits + more, id, end)
    ensures SetAt(more, id, reading, now)
  {
    if end.Won? {
      TurnWon(first, before, after, id, end.tokens);
    } else {
      CreditedAfter(first, before, after, "", None);
      CreditedMoves(first, after, "", None);
      IndexOfProps(after, id);
      if end.Failed? {
        TurnFailed(before, after, picks, excluded, waits, more, id, end, reading);
      }
    }
  }

  lemma TurnWon(first: seq<Account>, before: seq<Account>, after: seq<Account>, id: string, tokens: Tokens)
    requires DistinctIds(first) && Credited(first, before, "", None) && Credited(before, after, id, Some(tokens)) && id in Ids(first)
    ensures Credited(first, after, id, Some(tokens)) && Moved(first, after, Some(tokens)) && DistinctIds(after)
  {
    CreditedAfter(first, before, after, id, Some(tokens));
    CreditedMoves(first, after, id, Some(tokens));
  }

  lemma TurnFailed(before: seq<Account>, after: seq<Account>, picks: seq<string>, excluded: set<string>, waits: seq<Wait>,
                   more: seq<Wait>, id: string, end: AttemptEnd, reading: nat)
    requires forall x :: x in picks ==> x in excluded || SidelinedAt(before, x, waits)
    requires end.Failed? && Touched(before, after, id) && DistinctIds(after) && more == WaitsOf(after, id, end, reading)
    ensures forall x :: x in picks + [id] ==> x in excluded || (x == id && end.exclude) || SidelinedAt(after, x, waits + more)
  {
    IndexOfProps(after, id);
    forall x | x in picks + [id] && x !in excluded && !(x == id && end.exclude) ensures SidelinedAt(after, x, waits + more) {
      forall k | 0 <= k < |after| && after[k].id == x ensures Sidelined(after[k], waits + more) {
        if x == id {
          assert more != [] ==> (waits + more)[|waits|].until == after[k].cooldownUntil;
        } else {
          assert SidelinedAt(before, x, waits) && Sidelined(before[k], waits) && after[k] == before[k];
          StillSidelined(after[k], waits, more);
        }
      }
    }
  }

  lemma StillSidelined(a: Account, waits: seq<Wait>, more: seq<Wait>)
    requires Sidelined(a, waits)
    ensures Sidelined(a, waits + more)
  {
    if !Durable(a) {
      var k :| 0 <= k < |waits| && waits[k].until == a.cooldownUntil;
      assert (waits + more)[k] == waits[k];
    }
  }

  lemma Gathered(first: seq<Account>, stats: Stats, accounts: seq<Account>, picks: seq<string>, excluded: set<string>, waits: seq<Wait>)
    requires OnTrack(first, accounts, picks, excluded, waits)
    ensures BooksAfter(first, stats, accounts, stats, None, picks)
  {
    CreditedMoves(first, accounts, "", None);
  }

  /** If no reading up to now has reached a cooldown, none had when the last
      pick was made. */
  lemma NextOnce(at: nat -> int, from: nat, mid: nat, to: nat, picks: seq<string>, waits: seq<Wait>, id: string, more: seq<Wait>)
    requires from <= mid <= to && OnceEach(at, from, mid, picks, waits) && NewPicked(at, mid, to, picks, waits, id, more)
    ensures OnceEach(at, from, to, picks + [id], waits + more)
  {
    var all := waits + more;
    assert forall k :: 0 <= k < |waits| ==> all[k] == waits[k];
    assert forall k :: |waits| <= k < |all| ==> all[k] == more[k - |waits|];
    if PassesNone(at, from, to, all) {
      forall i, k | from <= i < to && 0 <= k < |waits| ensures at(i) < waits[k].until {
        assert at(i) < all[k].until;
      }
      assert PassesNone(at, from, mid, waits) && PassesNone(at, mid, to, waits);
    }
  }

  /** The candidate is ready and not excluded; without one, all ready accounts are. */
  lemma CandidateIs(accounts: seq<Account>, current: nat, mode: Pool.Mode, t: int, excluded: set<string>)
    ensures var candidate := FirstAllowed(Pool.Available(accounts, current, "codex", mode, t), excluded);
            (candidate.Some? ==> candidate.value in accounts && Pool.Eligible("codex", t, candidate.value) && candidate.value.id !in excluded) &&
            (candidate.None? ==> forall k :: 0 <= k < |accounts| && Pool.Eligible("codex", t, accounts[k]) ==> accounts[k].id in excluded)
  {
    var available := Pool.Available(accounts, current, "codex", mode, t);
    FirstAllowedIs(available, excluded);
    forall a ensures a in available <==> a in accounts && Pool.Eligible("codex", t, a) {
      Pool.AvailableExactly(accounts, current, "codex", mode, t, a);
      assert a in available <==> a in multiset(available);
      assert a in accounts <==> a in multiset(accounts);
    }
    forall k | 0 <= k < |accounts| && Pool.Eligible("codex", t, accounts[k])
      ensures FirstAllowed(available, excluded).None? ==> accounts[k].id in excluded
    {
      assert accounts[k] in accounts && accounts[k] in available;
      var j :| 0 <= j < |available| && available[j] == accounts[k];
    }
  }

  /** A ready candidate that was picked before has outlasted a cooldown. */
  lemma NewPick(first: seq<Account>, accounts: seq<Account>, picks: seq<string>, excluded: set<string>, waits: seq<Wait>,
                candidate: Account, t: int)
    requires OnTrack(first, accounts, picks, excluded, waits)
    requires candidate in accounts && Pool.Eligible("codex", t, candidate) && candidate.id !in excluded
    ensures candidate.id in Ids(first) && IndexOf(accounts, candidate.id) != -1
    ensures candidate.id in picks ==> Lapsed(waits, t)
  {
    var k :| 0 <= k < |accounts| && accounts[k] == candidate;
    IndexOfProps(accounts, candidate.id);
    assert first[k].id == candidate.id && first[k].provider == "codex";
    if candidate.id in picks {
      assert SidelinedAt(accounts, candidate.id, waits) && Sidelined(accounts[k], waits) && !Durable(candidate);
    }
  }

  ghost predicate SetAt(waits: seq<Wait>, id: string, reading: nat, now: int) {
    forall k :: 0 <= k < |waits| ==> waits[k].id == id && waits[k].reading == reading && now <= waits[k].until
  }

  ghost predicate Lapsed(waits: seq<Wait>, t: int) {
    exists k :: 0 <= k < |waits| && waits[k].until <= t
  }

  lemma PickIsNew(at: nat -> int, from: nat, to: nat, picks: seq<string>, waits: seq<Wait>, id: string, more: seq<Wait>)
    requires from < to && (id in picks ==> Lapsed(waits, at(from)))
    requires SetAt(more, id, to - 1, at(to - 1))
    ensures NewPicked(at, from, to, picks, waits, id, more)
  {
  }

  lemma NoneReady(accounts: seq<Account>, now: int)
    ensures Pool.Count("codex", now, accounts).ready == 0
            ==> forall k :: 0 <= k < |accounts| ==> !Pool.Eligible("codex", now, accounts[k])
  {
    Pool.CountSums("codex", now, accounts);
    Pool.FilterAll("codex", now, accounts);
  }

  function Ids(accounts: seq<Account>): set<string> {
    set k | 0 <= k < |accounts| && accounts[k].provider == "codex" :: accounts[k].id
  }

  function Total(s: seq<nat>): nat {
    if s == [] then 0 else Total(s[..|s| - 1]) + s[|s| - 1]
  }

  /** A reply that ends the request with an answer: a completion with a text, a
      thinking or a tool use to show. */
  predicate Answers(r: Reply, tokens: Tokens) {
    && r.Answered? && 200 <= r.status < 300 && r.body.outcome.Completed? && r.body.outcome.tokens == tokens
    && (!Blank(r.body.outcome.text) || !Blank(r.body.outcome.thinking) || r.body.outcome.toolUses > 0)
  }

  ghost predicate Fulfils(r: Reply) {
    exists tokens :: Answers(r, tokens)
  }

  lemma FulfilsWhen(r: Reply)
    ensures Fulfils(r) <==> r.Answered? && 200 <= r.status < 300 && HasVisibleOutput(r.body.outcome)
    ensures Fulfils(r) ==> Answers(r, r.body.outcome.tokens)
  {
    if r.Answered? && 200 <= r.status < 300 && HasVisibleOutput(r.body.outcome) {
      assert Answers(r, r.body.outcome.tokens);
    }
  }

  /** A reply that ends the request because of what was asked. */
  predicate RejectsShape(r: Reply) {
    r.Answered? && !(200 <= r.status < 300) && Malformed(r.status, r.body.signals)
  }

  ghost predicate Conclusive(r: Reply) {
    RejectsShape(r) || Fulfils(r)
  }

  lemma CodexTarget()
    ensures Pool.Target("codex") == "codex"
  {
    TrimmedIsItself("codex");
    assert forall i :: 0 <= i < 5 ==> LowerChar("codex"[i]) == "codex"[i];
  }

  lemma ShapeStatus(status: int, s: Signals)
    ensures ClassifyHttp(401, s).class_ != RequestShape
    ensures ClassifyHttp(status, s).class_ == RequestShape ==> ClassifyHttp(status, s).status == 502
  {
  }

  lemma ShapeChangesNothing(accounts: seq<Account>, id: string, d: Decision, now: int)
    requires d.class_ == RequestShape
    ensures Update(accounts, id, a => AfterFailure(a, d, now)) == accounts
  {
    UpdateNothing(accounts, id);
    UpdateSame(accounts, id, a => a, a => AfterFailure(a, d, now));
  }
}
