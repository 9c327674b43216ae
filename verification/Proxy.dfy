/** The proxy's request handler over both providers, and the books of a whole run. */
module ProxyServer {
  import opened Text
  import opened Accounts
  import opened Failures
  import opened Store
  import CodexService
  import KiroService
  import Pool

  /** What preparing a request came to: refused, or routed to a provider. */
  datatype Prepared =
    | Rejected(status: int)
    | ToCodex(model: string, encodes: bool)
    | ToKiro(model: string, encodes: bool, badRequest: Signals)
    | Unsupported

  class Server {
    const manager: Manager
    const codex: CodexService.Service
    const kiro: KiroService.Service

    constructor (manager: Manager, codex: CodexService.Service, kiro: KiroService.Service)
      ensures this.manager == manager && this.codex == codex && this.kiro == kiro
    {
      this.manager, this.codex, this.kiro := manager, codex, kiro;
    }

    /** Both providers work on the server's own store and pool. */
    predicate Shared() {
      codex.manager == manager && kiro.manager == manager && codex.pool == kiro.pool && codex.clock == kiro.clock
    }

    /** executeRequest, watched for a number of retry turns: as long as it runs
        the books are as they were, and when it ends it is entered in them once.
        It does end once the turns outnumber the Codex accounts and the clock
        passes no cooldown that the request sets. */
    method ExecuteRequest(prepared: Prepared, turns: nat)
      returns (answer: Option<Answer>, ghost picks: seq<string>, ghost waits: seq<CodexService.Wait>, ghost over: Option<int>)
      requires Shared() && DistinctIds(manager.accounts) && codex.pool.current < Pool.UINT64
      modifies manager, codex.pool, codex.clock, codex`sends, codex`authCalls, kiro`sends, kiro`authCalls
      ensures codex.pool.current < Pool.UINT64
      ensures answer.None? ==> CodexService.Unentered(old(manager.accounts), old(manager.stats), manager.accounts, manager.stats)
      ensures answer.Some? ==> Entered(old(manager.accounts), old(manager.stats), manager.accounts, manager.stats, Winner(answer.value))
      ensures prepared.Rejected? ==> answer == Some(Failure(prepared.status))
      ensures prepared.Unsupported? ==> answer == Some(Failure(400))
      ensures prepared.ToKiro? ==> answer.Some?
      ensures !prepared.ToCodex? ==> codex.sends == old(codex.sends) && codex.authCalls == old(codex.authCalls)
      ensures !prepared.ToKiro? ==> kiro.sends == old(kiro.sends) && kiro.authCalls == old(kiro.authCalls)
      ensures prepared.ToCodex? ==> OnlyOf(old(manager.accounts), manager.accounts, "codex")
      ensures prepared.ToKiro? ==> OnlyOf(old(manager.accounts), manager.accounts, "kiro")
      ensures prepared.Rejected? || prepared.Unsupported? ==> manager.accounts == old(manager.accounts)
      ensures prepared.ToCodex? && !Blank(prepared.model) && over.None? ==>
                CodexService.Concludes(answer, prepared.encodes, old(codex.sends), codex.sends, codex.upstream)
      ensures prepared.ToCodex? && over.Some? ==> CodexService.GivenUp(answer, manager.accounts, over.value, picks, codex.clock.Last())
      ensures prepared.ToKiro? && answer.Some? ==> KiroService.EarnedBy(Winner(answer.value), old(kiro.sends), kiro.sends, kiro.upstream)
      ensures prepared.ToKiro? && !Blank(prepared.model) && answer.Some? && answer.value.Failure? ==>
                AskedEach(old(manager.accounts), kiro.clock.at, old(kiro.clock.readings), kiro.pool.current, kiro.mode,
                          kiro.authCalls - old(kiro.authCalls))
      ensures CodexService.OnceEach(codex.clock.at, old(codex.clock.readings), codex.clock.readings, picks, waits)
      ensures CodexService.PassesNone(codex.clock.at, old(codex.clock.readings), codex.clock.readings, waits) ==>
                turns > |CodexService.Ids(old(manager.accounts))| ==> answer.Some?
    {
      ghost var first, stats := manager.accounts, manager.stats;
      UntouchedEntered(first, stats, first);
      picks, waits, over := [], [], None;
      match prepared {
        case Rejected(status) =>
          manager.RecordRequestFailure();
          answer := Some(Failure(status));
        case Unsupported =>
          manager.RecordRequestFailure();
          answer := Some(Failure(400));
        case ToCodex(model, encodes) =>
          ghost var asked;
          answer, picks, asked, waits, over := codex.Complete(model, encodes, turns);
        case ToKiro(model, encodes, badRequest) =>
          var outcome := ByKiro(model, encodes, badRequest);
          answer := Some(outcome);
      }
    }

    /** A request to Kiro, which asks every candidate before it gives up. */
    method ByKiro(model: string, encodes: bool, badRequest: Signals) returns (answer: Answer)
      requires Shared() && DistinctIds(manager.accounts) && kiro.pool.current < Pool.UINT64
      modifies manager, kiro.pool, kiro.clock, kiro`sends, kiro`authCalls
      ensures kiro.pool.current < Pool.UINT64 && old(kiro.clock.readings) <= kiro.clock.readings
      ensures Entered(old(manager.accounts), old(manager.stats), manager.accounts, manager.stats, Winner(answer))
      ensures OnlyOf(old(manager.accounts), manager.accounts, "kiro")
      ensures KiroService.EarnedBy(Winner(answer), old(kiro.sends), kiro.sends, kiro.upstream)
      ensures !Blank(model) && answer.Failure? ==>
                AskedEach(old(manager.accounts), kiro.clock.at, old(kiro.clock.readings), kiro.pool.current, kiro.mode,
                          kiro.authCalls - old(kiro.authCalls))
    {
      ghost var listed, tried;
      answer, listed, tried := kiro.Execute(model, encodes, badRequest);
    }
  }

  /** If any Kiro account is ready, as many tokens were checked as there are candidates. */
  ghost predicate AskedEach(accounts: seq<Account>, at: nat -> int, reading: nat, counter: nat, mode: Pool.Mode, checks: int) {
    Pool.Count("kiro", at(reading), accounts).ready > 0 ==> checks == |Pool.Available(accounts, counter, "kiro", mode, at(reading + 1))|
  }

  // ---------- the books of a whole run ----------

  datatype State = State(accounts: seq<Account>, stats: Stats)

  /** Between two states of the store lies one request, or upkeep of one
      account by the login machinery. */
  datatype Step = Request(won: Option<Tokens>) | Upkeep(id: string)

  ghost predicate Steps(before: State, step: Step, after: State) {
    match step
    case Request(won) => Entered(before.accounts, before.stats, after.accounts, after.stats, won)
    case Upkeep(id) => after.stats == before.stats && Touched(before.accounts, after.accounts, id)
  }

  ghost predicate Run(states: seq<State>, steps: seq<Step>) {
    |states| == |steps| + 1 && forall i :: 0 <= i < |steps| ==> Steps(states[i], steps[i], states[i + 1])
  }

  function Requests(steps: seq<Step>): nat {
    if steps == [] then 0 else Requests(steps[..|steps| - 1]) + if steps[|steps| - 1].Request? then 1 else 0
  }

  /** What all successful requests of a run earned. */
  function Earned(steps: seq<Step>): Tally {
    if steps == [] then Tally(0, 0, 0, 0)
    else
      var rest, last := Earned(steps[..|steps| - 1]), steps[|steps| - 1];
      if last.Request? && last.won.Some? then Plus(rest, Credit(last.won.value)) else rest
  }

  /** `requests` more requests were counted, and both sides of the books grew by `earned`. */
  ghost predicate Balanced(first: State, last: State, requests: nat, earned: Tally) {
    && last.stats.total == first.stats.total + requests
    && last.stats.total - last.stats.success - last.stats.failed == first.stats.total - first.stats.success - first.stats.failed
    && Served(last.stats) == Plus(Served(first.stats), earned)
    && Tallied(last.accounts) == Plus(Tallied(first.accounts), earned)
  }

  lemma StepBalances(first: State, before: State, step: Step, after: State, requests: nat, earned: Tally)
    requires Balanced(first, before, requests, earned) && Steps(before, step, after)
    ensures Balanced(first, after, if step.Request? then requests + 1 else requests,
                     if step.Request? && step.won.Some? then Plus(earned, Credit(step.won.value)) else earned)
  {
    match step {
      case Upkeep(id) =>
        TouchedTally(before.accounts, after.accounts, id);
      case Request(won) =>
        EntryBalances(first, before, after, won, requests, earned);
    }
  }

  lemma EntryBalances(first: State, before: State, after: State, won: Option<Tokens>, requests: nat, earned: Tally)
    requires Balanced(first, before, requests, earned) && after.stats == Recorded(before.stats, won)
    requires Tallied(after.accounts) == if won.Some? then Plus(Tallied(before.accounts), Credit(won.value)) else Tallied(before.accounts)
    ensures Balanced(first, after, requests + 1, if won.Some? then Plus(earned, Credit(won.value)) else earned)
  {
    if won.Some? {
      PlusAssoc(Tallied(first.accounts), earned, Credit(won.value));
      PlusAssoc(Served(first.stats), earned, Credit(won.value));
    }
  }

  lemma PlusAssoc(t: Tally, u: Tally, v: Tally)
    ensures Plus(Plus(t, u), v) == Plus(t, Plus(u, v))
  {
  }

  /** Every request of a run is counted once, as a success or as a failure, and
      the statistics and the accounts grow by the same amounts. */
  lemma {:induction false} BooksBalance(states: seq<State>, steps: seq<Step>)
    requires Run(states, steps)
    ensures Balanced(states[0], states[|steps|], Requests(steps), Earned(steps))
    decreases |steps|
  {
    if steps != [] {
      var n := |steps| - 1;
      assert Run(states[..n + 1], steps[..n]);
      BooksBalance(states[..n + 1], steps[..n]);
      StepBalances(states[0], states[n], steps[n], states[n + 1], Requests(steps[..n]), Earned(steps[..n]));
    }
  }
}
