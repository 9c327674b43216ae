/** The single-flight token recovery: any number of callers, one refresh per
    account, a bounded number of refreshes overall. Every step between two
    accesses to shared data is an action of its own. */
module Recovery {
  import opened Text
  import opened Accounts

  datatype Error = BlankId | Cancelled | RefreshFailed(text: string) | NotReady

  datatype Status = Refreshed | PeerDone | Rejected

  /** recoveryCall. The channel is closed `closed` times. */
  datatype Call = Call(account: string, leader: nat, value: Account, err: Option<Error>, closed: nat)

  /** What the leader of a call is about to do. */
  datatype Phase = Acquiring | Refreshing | StoringValue | StoringError | Releasing | Deleting | Closing

  datatype Caller =
    | Idle
    | Waiting(call: nat)
    | Leading(call: nat, phase: Phase, value: Account, err: Option<Error>)
    | Returned(joined: Option<nat>, value: Account, status: Status, err: Option<Error>)

  datatype State = State(ids: seq<string>, callers: seq<Caller>, active: map<string, nat>, calls: seq<Call>, held: nat, limit: nat)

  datatype Action =
    | Enter(i: nat)
    | Acquire(i: nat)
    | CancelLead(i: nat)
    | RefreshReturns(i: nat, value: Account, err: Option<Error>)
    | StoreValue(i: nat)
    | StoreError(i: nat)
    | Release(i: nat)
    | Delete(i: nat)
    | Close(i: nat)
    | WakeUp(i: nat)
    | CancelWait(i: nat)

  /** The zero account. */
  const NONE := Account("", "", false, false, Healthy, 0, 0, Quota("", []), 0, 0, 0, 0, 0, 0)

  /** NewAuthRecoveryCoordinator. */
  function Limit(maxConcurrent: int): (n: nat)
    ensures n > 0
  {
    if maxConcurrent <= 0 then 2 else maxConcurrent
  }

  function Start(ids: seq<string>, maxConcurrent: int): State {
    State(ids, seq(|ids|, i => Idle), map[], [], 0, Limit(maxConcurrent))
  }

  predicate AtPhase(s: State, i: nat, phase: Phase) {
    i < |s.callers| && s.callers[i].Leading? && s.callers[i].phase == phase && s.callers[i].call < |s.calls|
  }

  predicate Enabled(s: State, a: Action) {
    a.i < |s.callers| == |s.ids| &&
    match a
    case Enter(i) => s.callers[i].Idle?
    case Acquire(i) => AtPhase(s, i, Acquiring) && s.held < s.limit
    case CancelLead(i) => AtPhase(s, i, Acquiring)
    case RefreshReturns(i, value, err) => AtPhase(s, i, Refreshing) && (err.None? || err.value.RefreshFailed?)
    case StoreValue(i) => AtPhase(s, i, StoringValue)
    case StoreError(i) => AtPhase(s, i, StoringError)
    case Release(i) => AtPhase(s, i, Releasing) && s.held > 0
    case Delete(i) => AtPhase(s, i, Deleting)
    case Close(i) => AtPhase(s, i, Closing)
    case WakeUp(i) => s.callers[i].Waiting? && s.callers[i].call < |s.calls| && s.calls[s.callers[i].call].closed > 0
    case CancelWait(i) => s.callers[i].Waiting?
  }

  /** What the leader itself returns: an account that came back disabled or
      banned is an error for it, although none is stored in the call. */
  function LeaderError(value: Account, err: Option<Error>): Option<Error> {
    if err.Some? then err else if !value.enabled || value.banned then Some(NotReady) else None
  }

  function At(s: State, i: nat, c: Caller): State
    requires i < |s.callers|
  {
    s.(callers := s.callers[i := c])
  }

  function Apply(s: State, a: Action): State
    requires Enabled(s, a)
  {
    var i := a.i;
    var me := s.callers[i];
    match a
    case Enter(_) =>
      var id := TrimSpace(s.ids[i]);
      if id == "" then At(s, i, Returned(None, NONE, Rejected, Some(BlankId)))
      else if id in s.active then At(s, i, Waiting(s.active[id]))
      else At(s.(calls := s.calls + [Call(id, i, NONE, None, 0)], active := s.active[id := |s.calls|]), i,
              Leading(|s.calls|, Acquiring, NONE, None))
    case Acquire(_) => At(s.(held := s.held + 1), i, me.(phase := Refreshing))
    case CancelLead(_) =>
      At(s.(calls := s.calls[me.call := s.calls[me.call].(err := Some(Cancelled))]), i, Leading(me.call, Deleting, NONE, Some(Cancelled)))
    case RefreshReturns(_, value, err) => At(s, i, Leading(me.call, StoringValue, value, err))
    case StoreValue(_) => At(s.(calls := s.calls[me.call := s.calls[me.call].(value := me.value)]), i, me.(phase := StoringError))
    case StoreError(_) => At(s.(calls := s.calls[me.call := s.calls[me.call].(err := me.err)]), i, me.(phase := Releasing))
    case Release(_) => At(s.(held := s.held - 1), i, me.(phase := Deleting))
    case Delete(_) => At(s.(active := s.active - {TrimSpace(s.ids[i])}), i, me.(phase := Closing))
    case Close(_) =>
      At(s.(calls := s.calls[me.call := s.calls[me.call].(closed := s.calls[me.call].closed + 1)]), i,
         Returned(Some(me.call), me.value, if LeaderError(me.value, me.err).Some? then Rejected else Refreshed, LeaderError(me.value, me.err)))
    case WakeUp(_) => At(s, i, Returned(Some(me.call), s.calls[me.call].value, PeerDone, s.calls[me.call].err))
    case CancelWait(_) => At(s, i, Returned(None, NONE, Rejected, Some(Cancelled)))
  }

  // ---------- the invariant ----------

  predicate Holds(c: Caller) {
    c.Leading? && c.phase in {Refreshing, StoringValue, StoringError, Releasing}
  }

  function Holders(callers: seq<Caller>): nat {
    if callers == [] then 0 else Holders(callers[1..]) + if Holds(callers[0]) then 1 else 0
  }

  predicate ActiveOk(s: State, id: string, c: nat) {
    c < |s.calls| && s.calls[c].account == id && s.calls[c].leader < |s.callers| &&
    s.callers[s.calls[c].leader].Leading? && s.callers[s.calls[c].leader].call == c && s.callers[s.calls[c].leader].phase != Closing
  }

  /** A leader owns its call, which is open and, until it is deleted, the
      active one for its account; what is already stored is what it holds. */
  predicate LeaderOk(s: State, i: nat, me: Caller)
    requires i < |s.ids| && me.Leading?
  {
    var id := TrimSpace(s.ids[i]);
    && me.call < |s.calls| && s.calls[me.call].leader == i && s.calls[me.call].account == id && s.calls[me.call].closed == 0
    && (me.phase == Closing || (id in s.active && s.active[id] == me.call))
    && (me.phase in {Acquiring, Refreshing, StoringValue} ==> s.calls[me.call].err == None)
    && (me.phase in {StoringError, Releasing, Deleting, Closing} ==> s.calls[me.call].value == me.value)
    && (me.phase in {Releasing, Deleting, Closing} ==> s.calls[me.call].err == me.err)
    && (me.phase in {Acquiring, Refreshing} ==> s.calls[me.call].value == NONE)
  }

  predicate CallerOk(s: State, i: nat, me: Caller)
    requires i < |s.ids|
  {
    match me
    case Idle => true
    case Waiting(c) => c < |s.calls| && s.calls[c].account == TrimSpace(s.ids[i]) && TrimSpace(s.ids[i]) != ""
    case Leading(_, _, _, _) => LeaderOk(s, i, me) && TrimSpace(s.ids[i]) != ""
    case Returned(joined, value, status, err) =>
      (joined.Some? ==> TrimSpace(s.ids[i]) != "" && (status != PeerDone ==> (status == Rejected <==> err.Some?))) &&
      (joined.None? ==> me == Returned(None, NONE, Rejected, Some(if TrimSpace(s.ids[i]) == "" then BlankId else Cancelled))) &&
      (joined.Some? ==> joined.value < |s.calls| && s.calls[joined.value].account == TrimSpace(s.ids[i]) && s.calls[joined.value].closed > 0 && s.calls[joined.value].value == value &&
                        (status == PeerDone ==> err == s.calls[joined.value].err) &&
                        (status != PeerDone ==> s.calls[joined.value].leader == i && err == LeaderError(value, s.calls[joined.value].err)))
  }

  /** A call is either led, and open, or its leader has returned and closed it once. */
  predicate CallOk(s: State, c: nat)
    requires c < |s.calls|
  {
    var call := s.calls[c];
    call.leader < |s.callers| &&
    var leader := s.callers[call.leader];
    if call.closed == 0 then leader.Leading? && leader.call == c
    else call.closed == 1 && leader.Returned? && leader.joined == Some(c) && leader.status != PeerDone
  }

  ghost predicate ActivesOk(s: State) {
    forall id :: id in s.active ==> ActiveOk(s, id, s.active[id])
  }

  ghost predicate CallersOk(s: State) {
    |s.callers| == |s.ids| && forall i :: 0 <= i < |s.callers| ==> CallerOk(s, i, s.callers[i])
  }

  ghost predicate CallsOk(s: State) {
    forall c :: 0 <= c < |s.calls| ==> CallOk(s, c)
  }

  ghost predicate Inv(s: State) {
    && |s.callers| == |s.ids|
    && ActivesOk(s) && CallersOk(s) && CallsOk(s)
    && s.held == Holders(s.callers) <= s.limit
  }

  lemma {:induction false} HoldersAt(callers: seq<Caller>, i: nat, c: Caller)
    requires i < |callers|
    ensures Holders(callers[i := c]) == Holders(callers) - (if Holds(callers[i]) then 1 else 0) + if Holds(c) then 1 else 0
    decreases |callers|
  {
    if i == 0 {
      assert callers[0 := c][1..] == callers[1..];
    } else {
      HoldersAt(callers[1..], i - 1, c);
      assert callers[i := c][1..] == callers[1..][i - 1 := c];
    }
  }

  lemma {:induction false} StartHolds(ids: seq<string>, maxConcurrent: int)
    ensures Inv(Start(ids, maxConcurrent))
  {
    NoHolders(Start(ids, maxConcurrent).callers);
  }

  lemma {:induction false} NoHolders(callers: seq<Caller>)
    requires forall i :: 0 <= i < |callers| ==> !Holds(callers[i])
    ensures Holders(callers) == 0
    decreases |callers|
  {
    if callers != [] {
      NoHolders(callers[1..]);
    }
  }

  /** What an action of caller `i` leaves alone: all calls but an open one that
      `i` leads, and all active entries but the one for such a call. */
  ghost predicate Framed(s: State, t: State, i: nat) {
    && t.ids == s.ids && |t.calls| >= |s.calls|
    && (forall c :: 0 <= c < |s.calls| ==>
          t.calls[c].account == s.calls[c].account && t.calls[c].leader == s.calls[c].leader &&
          (t.calls[c] == s.calls[c] || (s.calls[c].closed == 0 && s.calls[c].leader == i)))
    && (forall id :: id in s.active ==>
          s.active[id] < |s.calls| && ((id in t.active && t.active[id] == s.active[id]) || s.calls[s.active[id]].leader == i))
  }

  lemma StepFramed(s: State, a: Action)
    requires Inv(s) && Enabled(s, a)
    ensures Framed(s, Apply(s, a), a.i)
  {
    assert CallerOk(s, a.i, s.callers[a.i]);
    var t := Apply(s, a);
    forall id | id in s.active
      ensures s.active[id] < |s.calls| && ((id in t.active && t.active[id] == s.active[id]) || s.calls[s.active[id]].leader == a.i)
    {
      assert ActiveOk(s, id, s.active[id]);
    }
  }

  lemma ActiveKeeps(s: State, a: Action, id: string)
    requires Inv(s) && Enabled(s, a) && id in Apply(s, a).active
    ensures ActiveOk(Apply(s, a), id, Apply(s, a).active[id])
  {
    if id in s.active {
      var c := s.active[id];
      assert ActiveOk(s, id, c);
      if s.calls[c].leader == a.i {
        LedActiveKeeps(s, a, id);
      } else {
        StepFramed(s, a);
      }
    } else {
      EnteredActive(s, a, id);
    }
  }

  lemma EnteredActive(s: State, a: Action, id: string)
    requires Enabled(s, a) && id !in s.active && id in Apply(s, a).active
    ensures ActiveOk(Apply(s, a), id, Apply(s, a).active[id])
  {
  }

  lemma LedActiveKeeps(s: State, a: Action, id: string)
    requires Inv(s) && Enabled(s, a) && id in s.active && id in Apply(s, a).active
    requires ActiveOk(s, id, s.active[id]) && s.calls[s.active[id]].leader == a.i
    ensures ActiveOk(Apply(s, a), id, Apply(s, a).active[id])
  {
    assert CallerOk(s, a.i, s.callers[a.i]);
  }

  lemma CallKeeps(s: State, a: Action, c: nat)
    requires Inv(s) && Enabled(s, a) && c < |Apply(s, a).calls|
    ensures CallOk(Apply(s, a), c)
  {
    if c < |s.calls| {
      assert CallOk(s, c);
      if s.calls[c].leader == a.i {
        LedCallKeeps(s, a, c);
      } else {
        StepFramed(s, a);
      }
    }
  }

  lemma LedCallKeeps(s: State, a: Action, c: nat)
    requires Inv(s) && Enabled(s, a) && c < |s.calls| && CallOk(s, c) && s.calls[c].leader == a.i
    ensures c < |Apply(s, a).calls| && CallOk(Apply(s, a), c)
  {
    assert CallerOk(s, a.i, s.callers[a.i]);
  }

  lemma MoverKeeps(s: State, a: Action)
    requires Inv(s) && Enabled(s, a)
    ensures CallerOk(Apply(s, a), a.i, Apply(s, a).callers[a.i])
  {
    assert CallerOk(s, a.i, s.callers[a.i]);
    if a.Enter? && TrimSpace(s.ids[a.i]) in s.active {
      assert ActiveOk(s, TrimSpace(s.ids[a.i]), s.active[TrimSpace(s.ids[a.i])]);
    }
    if a.WakeUp? {
      assert CallOk(s, s.callers[a.i].call);
    }
  }

  lemma OtherKeeps(s: State, t: State, i: nat, j: nat, other: Caller)
    requires Framed(s, t, i) && j != i && j < |s.ids|
    requires CallerOk(s, j, other)
    ensures CallerOk(t, j, other)
  {
  }

  lemma ActivesKeep(s: State, a: Action)
    requires Inv(s) && Enabled(s, a)
    ensures ActivesOk(Apply(s, a))
  {
    forall id | id in Apply(s, a).active ensures ActiveOk(Apply(s, a), id, Apply(s, a).active[id]) {
      ActiveKeeps(s, a, id);
    }
  }

  lemma CallsKeep(s: State, a: Action)
    requires Inv(s) && Enabled(s, a)
    ensures CallsOk(Apply(s, a))
  {
    forall c | 0 <= c < |Apply(s, a).calls| ensures CallOk(Apply(s, a), c) {
      CallKeeps(s, a, c);
    }
  }

  lemma CallersKeep(s: State, a: Action)
    requires Inv(s) && Enabled(s, a)
    ensures CallersOk(Apply(s, a))
  {
    var t := Apply(s, a);
    MoverKeeps(s, a);
    StepFramed(s, a);
    forall j | 0 <= j < |t.callers| ensures CallerOk(t, j, t.callers[j]) {
      if j != a.i {
        OtherKeeps(s, t, a.i, j, s.callers[j]);
      }
    }
  }

  lemma HeldKeeps(s: State, a: Action)
    requires Inv(s) && Enabled(s, a)
    ensures Apply(s, a).held == Holders(Apply(s, a).callers) <= Apply(s, a).limit
  {
    HoldersAt(s.callers, a.i, Apply(s, a).callers[a.i]);
  }

  lemma StepKeeps(s: State, a: Action)
    requires Inv(s) && Enabled(s, a)
    ensures Inv(Apply(s, a))
  {
    ActivesKeep(s, a);
    CallersKeep(s, a);
    CallsKeep(s, a);
    HeldKeeps(s, a);
  }

  // ---------- every interleaving ----------

  ghost predicate Possible(s: State, actions: seq<Action>)
    decreases |actions|, 0
  {
    actions == [] || (Possible(s, actions[..|actions| - 1]) && Enabled(Play(s, actions[..|actions| - 1]), actions[|actions| - 1]))
  }

  /** The state after a possible run. */
  ghost function Play(s: State, actions: seq<Action>): State
    requires Possible(s, actions)
    decreases |actions|, 1
  {
    if actions == [] then s else Apply(Play(s, actions[..|actions| - 1]), actions[|actions| - 1])
  }

  lemma {:induction false} RunKeeps(s: State, actions: seq<Action>)
    requires Inv(s) && Possible(s, actions)
    ensures Inv(Play(s, actions))
    decreases |actions|
  {
    if actions != [] {
      RunKeeps(s, actions[..|actions| - 1]);
      StepKeeps(Play(s, actions[..|actions| - 1]), actions[|actions| - 1]);
    }
  }

  /** What holds in every state that any interleaving reaches. */
  ghost predicate Reachable(s: State) {
    exists ids, maxConcurrent, actions :: Possible(Start(ids, maxConcurrent), actions) && s == Play(Start(ids, maxConcurrent), actions)
  }

  lemma ReachableInv(s: State)
    requires Reachable(s)
    ensures Inv(s)
  {
    var ids, maxConcurrent, actions :|
      Possible(Start(ids, maxConcurrent), actions) && s == Play(Start(ids, maxConcurrent), actions);
    StartHolds(ids, maxConcurrent);
    RunKeeps(Start(ids, maxConcurrent), actions);
  }

  predicate InFlight(s: State, i: nat) {
    AtPhase(s, i, Refreshing)
  }

  /** At most one refresh per account is in flight. */
  lemma OneRefreshPerAccount(s: State, i: nat, j: nat)
    requires Reachable(s) && InFlight(s, i) && InFlight(s, j)
    ensures |s.ids| == |s.callers| && (TrimSpace(s.ids[i]) == TrimSpace(s.ids[j]) ==> i == j)
  {
    ReachableInv(s);
    assert CallerOk(s, i, s.callers[i]) && CallerOk(s, j, s.callers[j]);
  }

  lemma {:induction false} SomeHold(callers: seq<Caller>, some: set<nat>)
    requires forall i :: i in some ==> i < |callers| && Holds(callers[i])
    ensures |some| <= Holders(callers)
    decreases |some|
  {
    if some != {} {
      var i :| i in some;
      HoldersAt(callers, i, Idle);
      SomeHold(callers[i := Idle], some - {i});
    }
  }

  /** At most `limit` refreshes are in flight overall. */
  lemma RefreshesBounded(s: State, some: set<nat>)
    requires Reachable(s) && forall i :: i in some ==> InFlight(s, i)
    ensures |some| <= s.limit
  {
    ReachableInv(s);
    SomeHold(s.callers, some);
  }

  /** A done channel is closed at most once, and once it is closed neither the
      channel nor the stored value and error ever change again. */
  lemma ClosedIsFinal(s: State, a: Action, c: nat)
    requires Reachable(s) && Enabled(s, a) && c < |s.calls| && s.calls[c].closed > 0
    ensures s.calls[c].closed == 1
    ensures c < |Apply(s, a).calls| && Apply(s, a).calls[c] == s.calls[c]
  {
    ReachableInv(s);
    assert CallOk(s, c);
    StepFramed(s, a);
  }

  /** A waiter always has a closed channel or a leader that will close it. */
  lemma NoWaiterIsLeft(s: State, i: nat)
    requires Reachable(s) && i < |s.callers| && s.callers[i].Waiting?
    ensures var c := s.callers[i].call;
            c < |s.calls| && s.calls[c].leader < |s.callers| &&
            (s.calls[c].closed == 1 || (s.callers[s.calls[c].leader].Leading? && s.callers[s.calls[c].leader].call == c))
  {
    ReachableInv(s);
    assert CallerOk(s, i, s.callers[i]);
    assert CallOk(s, s.callers[i].call);
  }

  /** A released waiter returns the value and the error that its leader stored;
      that is the leader's own value, and it is the leader's own error if and
      only if the refresh failed or brought back a usable account. */
  lemma WaiterGetsWhatWasStored(s: State, i: nat)
    requires Reachable(s) && i < |s.callers| && s.callers[i].Returned? && s.callers[i].status == PeerDone
    ensures var me := s.callers[i];
            me.joined.Some? && me.joined.value < |s.calls| &&
            var call := s.calls[me.joined.value];
            && call.closed == 1 && call.leader < |s.callers| && s.callers[call.leader].Returned?
            && me.value == call.value == s.callers[call.leader].value
            && me.err == call.err
            && (s.callers[call.leader].err == me.err <==> me.err.Some? || (me.value.enabled && !me.value.banned))
  {
    ReachableInv(s);
    assert CallerOk(s, i, s.callers[i]);
    var c := s.callers[i].joined.value;
    assert CallOk(s, c);
    assert CallerOk(s, s.calls[c].leader, s.callers[s.calls[c].leader]);
  }

  // ---------- no deadlock, no endless run ----------

  /** Actions that need no cancelled context. */
  predicate Willing(a: Action) {
    !a.CancelLead? && !a.CancelWait?
  }

  /** What a call has returned in every reachable state: an error of its own for a
      blank id or when its waiting was cancelled, and otherwise the value of the
      closed call of its account. */
  lemma ReturnedMeans(s: State, i: nat)
    requires Reachable(s) && i < |s.callers| && s.callers[i].Returned?
    ensures |s.callers| == |s.ids|
    ensures var me, id := s.callers[i], TrimSpace(s.ids[i]);
            if id == "" then me == Returned(None, NONE, Rejected, Some(BlankId))
            else if me.joined.None? then me == Returned(None, NONE, Rejected, Some(Cancelled))
            else
              me.joined.value < |s.calls| &&
              var call := s.calls[me.joined.value];
              && call.account == id && call.closed == 1 && me.value == call.value
              && (if me.status == PeerDone then me.err == call.err
                  else call.leader == i && (me.status == Refreshed <==> call.err.None? && call.value.enabled && !call.value.banned))
  {
    ReachableInv(s);
    assert CallerOk(s, i, s.callers[i]);
    if s.callers[i].joined.Some? {
      assert CallOk(s, s.callers[i].joined.value);
    }
  }

  /** A leader past its acquire can always go on. */
  lemma HolderMoves(s: State, i: nat) returns (a: Action)
    requires Inv(s) && i < |s.callers| && s.callers[i].Leading? && s.callers[i].phase != Acquiring
    ensures Willing(a) && Enabled(s, a)
  {
    assert CallerOk(s, i, s.callers[i]);
    HoldersAt(s.callers, i, Idle);
    match s.callers[i].phase {
      case Refreshing => a := RefreshReturns(i, NONE, None);
      case StoringValue => a := StoreValue(i);
      case StoringError => a := StoreError(i);
      case Releasing => a := Release(i);
      case Deleting => a := Delete(i);
      case Closing => a := Close(i);
    }
  }

  lemma {:induction false} FindHolder(callers: seq<Caller>) returns (i: nat)
    requires Holders(callers) > 0
    ensures i < |callers| && Holds(callers[i])
    decreases |callers|
  {
    if Holds(callers[0]) {
      i := 0;
    } else {
      var rest := FindHolder(callers[1..]);
      i := rest + 1;
    }
  }

  lemma LeaderMoves(s: State, i: nat) returns (a: Action)
    requires Inv(s) && s.limit > 0 && i < |s.callers| && s.callers[i].Leading?
    ensures Willing(a) && Enabled(s, a)
  {
    assert CallerOk(s, i, s.callers[i]);
    if s.callers[i].phase != Acquiring {
      a := HolderMoves(s, i);
    } else if s.held < s.limit {
      a := Acquire(i);
    } else {
      var j := FindHolder(s.callers);
      a := HolderMoves(s, j);
    }
  }

  /** As long as a caller has not returned, somebody can move without any
      context being cancelled. */
  lemma NoDeadlock(s: State, i: nat) returns (a: Action)
    requires Inv(s) && s.limit > 0 && i < |s.callers| && !s.callers[i].Returned?
    ensures Willing(a) && Enabled(s, a)
  {
    assert CallerOk(s, i, s.callers[i]);
    match s.callers[i] {
      case Idle => a := Enter(i);
      case Leading(_, _, _, _) => a := LeaderMoves(s, i);
      case Waiting(c) =>
        assert CallOk(s, c);
        if s.calls[c].closed > 0 {
          a := WakeUp(i);
        } else {
          a := LeaderMoves(s, s.calls[c].leader);
        }
    }
  }

  /** How many more actions a caller can take. */
  function Rank(c: Caller): nat {
    match c
    case Idle => 8
    case Waiting(_) => 1
    case Returned(_, _, _, _) => 0
    case Leading(_, phase, _, _) =>
      match phase
      case Acquiring => 7
      case Refreshing => 6
      case StoringValue => 5
      case StoringError => 4
      case Releasing => 3
      case Deleting => 2
      case Closing => 1
  }

  function Ranks(callers: seq<Caller>): nat {
    if callers == [] then 0 else Ranks(callers[1..]) + Rank(callers[0])
  }

  lemma {:induction false} RanksAt(callers: seq<Caller>, i: nat, c: Caller)
    requires i < |callers|
    ensures Ranks(callers[i := c]) == Ranks(callers) - Rank(callers[i]) + Rank(c)
    decreases |callers|
  {
    if i == 0 {
      assert callers[0 := c][1..] == callers[1..];
    } else {
      RanksAt(callers[1..], i - 1, c);
      assert callers[i := c][1..] == callers[1..][i - 1 := c];
    }
  }

  lemma StepDescends(s: State, a: Action)
    requires Enabled(s, a)
    ensures Ranks(Apply(s, a).callers) < Ranks(s.callers)
  {
    RanksAt(s.callers, a.i, Apply(s, a).callers[a.i]);
  }

  lemma {:induction false} RunDescends(s: State, actions: seq<Action>)
    requires Possible(s, actions)
    ensures Ranks(Play(s, actions).callers) + |actions| <= Ranks(s.callers)
    decreases |actions|
  {
    if actions != [] {
      RunDescends(s, actions[..|actions| - 1]);
      StepDescends(Play(s, actions[..|actions| - 1]), actions[|actions| - 1]);
    }
  }

  lemma {:induction false} IdleRanks(callers: seq<Caller>)
    requires forall i :: 0 <= i < |callers| ==> callers[i].Idle?
    ensures Ranks(callers) == 8 * |callers|
    decreases |callers|
  {
    if callers != [] {
      IdleRanks(callers[1..]);
    }
  }

  /** Every interleaving of n calls has at most eight actions a call, and when
      nobody can move any more every call has returned. */
  lemma EveryRunEnds(ids: seq<string>, maxConcurrent: int, actions: seq<Action>)
    requires Possible(Start(ids, maxConcurrent), actions)
    ensures |actions| <= 8 * |ids|
    ensures var s := Play(Start(ids, maxConcurrent), actions);
            (forall a :: Willing(a) ==> !Enabled(s, a)) ==> forall i :: 0 <= i < |s.callers| ==> s.callers[i].Returned?
  {
    var start := Start(ids, maxConcurrent);
    var s := Play(start, actions);
    RunDescends(start, actions);
    IdleRanks(start.callers);
    StartHolds(ids, maxConcurrent);
    RunKeeps(start, actions);
    LimitStays(start, actions);
    forall i | 0 <= i < |s.callers| && !s.callers[i].Returned? ensures exists a :: Willing(a) && Enabled(s, a) {
      var a := NoDeadlock(s, i);
    }
  }

  lemma {:induction false} LimitStays(s: State, actions: seq<Action>)
    requires Possible(s, actions)
    ensures Play(s, actions).limit == s.limit
    decreases |actions|
  {
    if actions != [] {
      LimitStays(s, actions[..|actions| - 1]);
      StepLimit(Play(s, actions[..|actions| - 1]), actions[|actions| - 1]);
    }
  }

  lemma StepLimit(s: State, a: Action)
    requires Enabled(s, a)
    ensures Apply(s, a).limit == s.limit
  {
  }

  /** At most as many refreshes as configured are in flight, or two if that is none. */
  lemma ConfiguredBound(ids: seq<string>, maxConcurrent: int, actions: seq<Action>, some: set<nat>)
    requires Possible(Start(ids, maxConcurrent), actions)
    requires forall i :: i in some ==> InFlight(Play(Start(ids, maxConcurrent), actions), i)
    ensures |some| <= if maxConcurrent <= 0 then 2 else maxConcurrent
  {
    var start := Start(ids, maxConcurrent);
    StartHolds(ids, maxConcurrent);
    RunKeeps(start, actions);
    LimitStays(start, actions);
    SomeHold(Play(start, actions).callers, some);
  }

  // ---------- what a refresh brought back is what is returned ----------

  /** The caller at i leads the call c with what its refresh brought back, or has
      closed it with that. */
  ghost predicate Holding(s: State, i: nat, c: nat, value: Account, err: Option<Error>) {
    && i < |s.callers| && c < |s.calls|
    && match s.callers[i]
       case Leading(call, phase, v, e) =>
         call == c && phase in {StoringValue, StoringError, Releasing, Deleting, Closing} && v == value && e == err
       case Returned(joined, v, status, e) =>
         joined == Some(c) && v == value && status != PeerDone && e == LeaderError(value, err)
         && s.calls[c].closed > 0 && s.calls[c].value == value && s.calls[c].err == err
       case _ => false
  }

  lemma HoldingStays(s: State, a: Action, i: nat, c: nat, value: Account, err: Option<Error>)
    requires Inv(s) && Enabled(s, a) && Holding(s, i, c, value, err)
    ensures Holding(Apply(s, a), i, c, value, err)
  {
    assert CallerOk(s, i, s.callers[i]);
    if a.i == i {
      assert s.callers[i].Leading?;
    } else {
      assert Apply(s, a).callers[i] == s.callers[i];
      if s.callers[i].Returned? {
        assert CallOk(s, c);
        assert CallerOk(s, a.i, s.callers[a.i]);
      }
    }
  }

  /** Whatever happens after a refresh came back: its leader returns that value and
      error, and stores them for all who wait. */
  lemma {:induction false} RefreshArrives(s: State, i: nat, value: Account, err: Option<Error>, actions: seq<Action>)
    requires Inv(s) && Enabled(s, RefreshReturns(i, value, err)) && Possible(Apply(s, RefreshReturns(i, value, err)), actions)
    ensures Inv(Play(Apply(s, RefreshReturns(i, value, err)), actions))
    ensures Holding(Play(Apply(s, RefreshReturns(i, value, err)), actions), i, s.callers[i].call, value, err)
    decreases |actions|
  {
    var t := Apply(s, RefreshReturns(i, value, err));
    if actions == [] {
      StepKeeps(s, RefreshReturns(i, value, err));
    } else {
      var before, last := actions[..|actions| - 1], actions[|actions| - 1];
      RefreshArrives(s, i, value, err, before);
      StepKeeps(Play(t, before), last);
      HoldingStays(Play(t, before), last, i, s.callers[i].call, value, err);
    }
  }
}
