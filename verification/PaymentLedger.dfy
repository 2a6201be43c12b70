/** The gateway's ledger: what a balance is in every run, how much writes of values read too early
    have lost, and when nothing is lost. */
module PaymentLedger {

  import opened PaymentBank
  import opened PaymentGateway
  import opened PaymentWorld
  import opened PaymentRuns
  import opened PaymentStore

  // ---- What the log adds up to ----

  /** The amounts of the successful entries of a client. */
  function Spent(log: seq<Entry>, client: string): real {
    if log == [] then 0.0
    else
      var e := log[|log| - 1];
      Spent(log[..|log| - 1], client) + if e.client == client && e.success then e.amount else 0.0
  }

  lemma SpentAppend(log: seq<Entry>, e: Entry, from: nat, client: string)
    requires from <= |log|
    ensures Spent((log + [e])[from..], client)
         == Spent(log[from..], client) + if e.client == client && e.success then e.amount else 0.0
  {
    assert (log + [e])[from..] == log[from..] + [e];
    assert (log[from..] + [e])[..|log| - from] == log[from..];
  }

  // ---- Debits not yet logged ----

  /** What call `t` has debited from the client and not yet logged. */
  function Unlogged(calls: map<nat, Call>, t: nat, client: string): real {
    if t in calls && calls[t].req.client == client && calls[t].stage == Succeeding(true) then calls[t].req.amount else 0.0
  }

  function AllUnlogged(calls: map<nat, Call>, client: string, n: nat): real {
    if n == 0 then 0.0 else AllUnlogged(calls, client, n - 1) + Unlogged(calls, n - 1, client)
  }

  lemma {:induction false} UnloggedAfterSet(calls: map<nat, Call>, t: nat, call: Call, client: string, n: nat)
    ensures AllUnlogged(calls[t := call], client, n)
         == AllUnlogged(calls, client, n)
            + if t < n then Unlogged(calls[t := call], t, client) - Unlogged(calls, t, client) else 0.0
  {
    if n != 0 {
      UnloggedAfterSet(calls, t, call, client, n - 1);
    }
  }

  predicate DebitPending(w: World, client: string) {
    exists t :: t in w.calls && w.calls[t].req.client == client && w.calls[t].stage == Succeeding(true)
  }

  lemma {:induction false} NothingUnlogged(w: World, client: string, n: nat)
    requires !DebitPending(w, client)
    ensures AllUnlogged(w.calls, client, n) == 0.0
  {
    if n != 0 {
      NothingUnlogged(w, client, n - 1);
    }
  }

  // ---- The surplus of a balance ----

  predicate HasRead(stage: Stage) {
    stage.DebitLoaded? || stage == Succeeding(true)
  }

  predicate AccountsOk(w: World) {
    && w.openedAt.Keys == w.accounts.Keys
    && (forall c :: c in w.accounts ==> w.openedAt[c] <= |w.log|)
    && (forall t :: t in w.calls && HasRead(w.calls[t].stage) ==> w.calls[t].req.client in w.accounts)
  }

  predicate Below(w: World, n: nat) {
    forall t :: t in w.calls ==> t < n
  }

  /** The opening balance less the successes since the account was opened. */
  function Plain(w: World, client: string): real
    requires AccountsOk(w) && client in w.accounts
  {
    OPENING - Spent(w.log[w.openedAt[client]..], client)
  }

  /** How much more the client has than the plain balance, debits on their way to the log included. */
  function Surplus(w: World, client: string, n: nat): real
    requires AccountsOk(w) && client in w.accounts
  {
    w.accounts[client] - Plain(w, client) + AllUnlogged(w.calls, client, n)
  }

  /** A write of the client's account that replaces a value other than the one its call had read; a
      success without a debit, because its call had found no account, counts as one. */
  predicate Stale(w: World, step: Step, client: string)
    requires Enabled(w, step)
  {
    client in w.accounts &&
    match step
    case StoreBalance(t) => w.calls[t].req.client == client && w.calls[t].stage.balance != w.accounts[client]
    case StoreSuccess(t) => w.calls[t].req.client == client && w.calls[t].stage == Succeeding(false)
    case StoreRegistration(u) => w.registrations[u].client == client
    case _ => false
  }

  /** What such a write gives the client. */
  function Lost(w: World, step: Step, client: string): real
    requires Enabled(w, step)
  {
    if !Stale(w, step, client) then 0.0
    else
      match step
      case StoreBalance(t) => w.calls[t].stage.balance - w.accounts[client]
      case StoreSuccess(t) => w.calls[t].req.amount
      case _ => OPENING - w.accounts[client]
  }

  function AllLost(w: World, steps: seq<Step>, client: string): real
    requires IsRun(w, steps)
    decreases steps
  {
    if steps == [] then 0.0
    else Lost(w, steps[0], client) + AllLost(Apply(w, steps[0]), steps[1..], client)
  }

  // ---- What a step does to the accounts ----

  /** Only call `t` moves, and it neither debits nor logs. */
  predicate OnlyMoves(w: World, w': World, t: nat) {
    && t in w'.calls && w'.calls == w.calls[t := w'.calls[t]]
    && w'.log == w.log && w'.accounts == w.accounts && w'.openedAt == w.openedAt
    && (t in w.calls ==> w'.calls[t].req == w.calls[t].req)
    && (w'.calls[t].stage == Succeeding(true) <==> t in w.calls && w.calls[t].stage == Succeeding(true))
    && (w'.calls[t].stage.DebitLoaded? ==> w'.calls[t].req.client in w.accounts)
  }

  lemma MoveKeeps(w: World, w': World, t: nat, client: string, n: nat)
    requires AccountsOk(w) && OnlyMoves(w, w', t)
    ensures AccountsOk(w')
    ensures client in w.accounts ==> Surplus(w', client, n) == Surplus(w, client, n)
  {
    UnloggedAfterSet(w.calls, t, w'.calls[t], client, n);
  }

  /** Every step but the three that write accounts or the log. */
  predicate Plainly(step: Step) {
    !step.StoreBalance? && !step.StoreSuccess? && !step.StoreFailure? && !step.StoreRegistration?
  }

  lemma CallStepMoves(w: World, step: Step)
    requires AccountsOk(w) && Enabled(w, step) && IsCallStep(step) && !step.StoreBalance?
    ensures OnlyMoves(w, Apply(w, step), step.t)
  {
    hide AccountsOk, Apply, Enabled, StepCall, CallEnabled;
    ApplyCallStep(w, step);
    CallStepStage(w, w.calls[step.t], step);
    LoadedHasAccount(w, step.t);
  }

  lemma LoadedHasAccount(w: World, t: nat)
    requires AccountsOk(w) && t in w.calls
    ensures w.calls[t].stage.DebitLoaded? ==> w.calls[t].req.client in w.accounts
  {
  }

  lemma AnswerStage(call: Call, id: RpcId)
    requires call.stage.Collecting? && id in call.box
    ensures var next := TakeAnswer(call, id);
            next.req == call.req && !next.stage.Succeeding? && !next.stage.DebitLoaded?
  {
  }

  lemma CallStepStage(w: World, call: Call, step: Step)
    requires CallEnabled(w, call, step) && IsCallStep(step) && !step.StoreBalance?
    ensures var next := StepCall(w, call, step);
            && next.req == call.req
            && (next.stage == Succeeding(true) <==> call.stage == Succeeding(true))
            && (next.stage.DebitLoaded? && next.stage != call.stage ==>
                  call.req.client in w.accounts && next.stage.balance == w.accounts[call.req.client])
            && (next.stage == Succeeding(false) && next.stage != call.stage ==> call.req.client !in w.accounts)
  {
    hide TakeAnswer, OnError, OnTimeout, Both;
    if step.TakeReply? {
      AnswerStage(call, step.id);
    }
  }

  lemma PlainStep(w: World, step: Step, client: string, n: nat)
    requires AccountsOk(w) && Enabled(w, step) && Plainly(step)
    ensures AccountsOk(Apply(w, step)) && Apply(w, step).accounts == w.accounts
    ensures client in w.accounts ==> Surplus(Apply(w, step), client, n) == Surplus(w, client, n)
  {
    hide Surplus, AccountsOk, OnlyMoves, HandleRpc, LookUp;
    if IsCallStep(step) {
      hide Apply, Enabled;
      CallStepMoves(w, step);
      MoveKeeps(w, Apply(w, step), step.t, client, n);
      ApplyCallStep(w, step);
    } else if step.SubmitRegistration? || step.LoadRegistration? {
      SameMoney(w, Apply(w, step), client, n);
    } else {
      OtherMoves(w, step);
      MoveKeeps(w, Apply(w, step), step.t, client, n);
    }
  }

  lemma OtherMoves(w: World, step: Step)
    requires AccountsOk(w) && Enabled(w, step) && (step.Submit? || step.LoadEntry? || step.Handle?)
    ensures OnlyMoves(w, Apply(w, step), step.t)
  {
    hide HandleRpc, LookUp;
  }

  lemma SameMoney(w: World, w': World, client: string, n: nat)
    requires AccountsOk(w) && w'.calls == w.calls
    requires w'.log == w.log && w'.accounts == w.accounts && w'.openedAt == w.openedAt
    ensures AccountsOk(w') && (client in w.accounts ==> Surplus(w', client, n) == Surplus(w, client, n))
  {
  }

  /** A write of a balance adds what it loses. */
  lemma WriteStep(w: World, t: nat, client: string, n: nat)
    requires AccountsOk(w) && Enabled(w, StoreBalance(t)) && t < n
    ensures var w' := Apply(w, StoreBalance(t));
            && AccountsOk(w') && w'.accounts.Keys == w.accounts.Keys
            && (client in w.accounts ==> Surplus(w', client, n) == Surplus(w, client, n) + Lost(w, StoreBalance(t), client))
  {
    var w' := Apply(w, StoreBalance(t));
    UnloggedAfterSet(w.calls, t, w'.calls[t], client, n);
  }

  /** Logging a debit moves it; logging a success without one adds its amount. */
  lemma LogStep(w: World, t: nat, r: Response, client: string, n: nat)
    requires AccountsOk(w) && t in w.calls && t < n
    requires if r.success then w.calls[t].stage.Succeeding? else w.calls[t].stage.Failing?
    ensures var w' := Finish(w, t, w.calls[t], r);
            && AccountsOk(w') && w'.accounts == w.accounts
            && (client in w.accounts ==>
                  Surplus(w', client, n) == Surplus(w, client, n) +
                    if r.success && w.calls[t].req.client == client && w.calls[t].stage == Succeeding(false)
                    then w.calls[t].req.amount else 0.0)
  {
    var w' := Finish(w, t, w.calls[t], r);
    UnloggedAfterSet(w.calls, t, w'.calls[t], client, n);
    if client in w.accounts {
      SpentAppend(w.log, w'.log[|w.log|], w.openedAt[client], client);
    }
  }

  /** Opening an account starts from nothing; opening it again adds what it resets. */
  lemma OpenStep(w: World, u: nat, client: string, n: nat)
    requires AccountsOk(w) && Enabled(w, StoreRegistration(u))
    ensures var w' := Apply(w, StoreRegistration(u));
            && AccountsOk(w')
            && (client in w'.accounts <==> client in w.accounts || client == w.registrations[u].client)
            && (client in w.accounts ==>
                  Surplus(w', client, n) == Surplus(w, client, n) + Lost(w, StoreRegistration(u), client))
            && (client in w'.accounts && client !in w.accounts ==> Surplus(w', client, n) == 0.0)
  {
    var w' := Apply(w, StoreRegistration(u));
    if client !in w.accounts {
      assert !DebitPending(w', client);
      NothingUnlogged(w', client, n);
      assert w.log[|w.log|..] == [];
    }
  }

  function SurplusOrNone(w: World, client: string, n: nat): real
    requires AccountsOk(w)
  {
    if client in w.accounts then Surplus(w, client, n) else 0.0
  }

  /** Every step adds to the surplus exactly what it loses. */
  lemma StepSurplus(w: World, step: Step, client: string, n: nat)
    requires AccountsOk(w) && Enabled(w, step) && Below(w, n)
    ensures AccountsOk(Apply(w, step)) && (client in w.accounts ==> client in Apply(w, step).accounts)
    ensures SurplusOrNone(Apply(w, step), client, n) == SurplusOrNone(w, client, n) + Lost(w, step, client)
  {
    hide AccountsOk, Surplus, Lost;
    if client !in w.accounts {
      NoLoss(w, step, client);
    }
    match step
    case StoreBalance(t) => WriteStep(w, t, client, n);
    case StoreFailure(t) => FailureStep(w, t, client, n);
    case StoreSuccess(t) => SuccessStep(w, t, client, n);
    case StoreRegistration(u) => OpenStep(w, u, client, n);
    case _ =>
      hide Apply, Enabled;
      PlainStep(w, step, client, n);
      NoLoss(w, step, client);
  }

  lemma NoLoss(w: World, step: Step, client: string)
    requires Enabled(w, step) && (Plainly(step) || client !in w.accounts)
    ensures Lost(w, step, client) == 0.0
  {
    hide Enabled;
  }

  lemma FailureStep(w: World, t: nat, client: string, n: nat)
    requires AccountsOk(w) && Enabled(w, StoreFailure(t)) && t < n
    ensures var w' := Apply(w, StoreFailure(t));
            && AccountsOk(w') && w'.accounts == w.accounts
            && (client in w.accounts ==> Surplus(w', client, n) == Surplus(w, client, n) + Lost(w, StoreFailure(t), client))
  {
    hide AccountsOk, Surplus, Finish;
    LogStep(w, t, Response(false, Text(w.calls[t].stage.why)), client, n);
  }

  lemma SuccessStep(w: World, t: nat, client: string, n: nat)
    requires AccountsOk(w) && Enabled(w, StoreSuccess(t)) && t < n
    ensures var w' := Apply(w, StoreSuccess(t));
            && AccountsOk(w') && w'.accounts == w.accounts
            && (client in w.accounts ==> Surplus(w', client, n) == Surplus(w, client, n) + Lost(w, StoreSuccess(t), client))
  {
    hide AccountsOk, Surplus, Finish;
    LogStep(w, t, Response(true, Paid(w.calls[t].req.amount, t)), client, n);
  }

  lemma StepCallsStay(w: World, step: Step)
    requires Enabled(w, step)
    ensures forall t :: t in w.calls ==> t in Apply(w, step).calls
  {
    hide HandleRpc, LookUp, StepCall;
  }

  lemma {:induction false} CallsStay(w: World, steps: seq<Step>)
    requires IsRun(w, steps)
    ensures forall t :: t in w.calls ==> t in After(w, steps).calls
    decreases steps
  {
    hide Apply, Enabled;
    if steps != [] {
      StepCallsStay(w, steps[0]);
      CallsStay(Apply(w, steps[0]), steps[1..]);
    }
  }

  lemma {:induction false} RunSurplus(w: World, steps: seq<Step>, client: string, n: nat)
    requires AccountsOk(w) && IsRun(w, steps) && Below(After(w, steps), n)
    ensures AccountsOk(After(w, steps)) && (client in w.accounts ==> client in After(w, steps).accounts)
    ensures SurplusOrNone(After(w, steps), client, n) == SurplusOrNone(w, client, n) + AllLost(w, steps, client)
    decreases steps
  {
    hide AccountsOk, Apply, Enabled, SurplusOrNone, Lost;
    if steps != [] {
      CallsStay(w, steps);
      StepSurplus(w, steps[0], client, n);
      RunSurplus(Apply(w, steps[0]), steps[1..], client, n);
    }
  }

  lemma {:induction false} SomeBound(keys: set<nat>) returns (n: nat)
    ensures forall t :: t in keys ==> t < n
  {
    if t :| t in keys {
      var m := SomeBound(keys - {t});
      n := if t < m then m else t + 1;
      assert forall x :: x in keys ==> x == t || x in keys - {t};
    } else {
      n := 0;
    }
  }

  lemma InitialAccounts(banks: map<string, Bank>, client: string, n: nat)
    ensures AccountsOk(Initial(banks)) && SurplusOrNone(Initial(banks), client, n) == 0.0
  {
    NothingUnlogged(Initial(banks), client, n);
  }

  // ---- Registration ----

  predicate DoneOk(w: World) {
    forall u :: u in w.registrations && w.registrations[u].stage.RegDone? ==> w.registrations[u].client in w.accounts
  }

  lemma StepDone(w: World, step: Step)
    requires DoneOk(w) && Enabled(w, step)
    ensures DoneOk(Apply(w, step)) && forall c :: c in w.accounts ==> c in Apply(w, step).accounts
  {
    hide HandleRpc, LookUp, StepCall;
  }

  lemma {:induction false} RunDone(w: World, steps: seq<Step>)
    requires DoneOk(w) && IsRun(w, steps)
    ensures DoneOk(After(w, steps)) && forall c :: c in w.accounts ==> c in After(w, steps).accounts
    decreases steps
  {
    hide DoneOk, Apply, Enabled;
    if steps != [] {
      StepDone(w, steps[0]);
      RunDone(Apply(w, steps[0]), steps[1..]);
    }
  }

  /** In every run a client whose registration is done has an account, and keeps it. */
  lemma RegisteredHasAccount(banks: map<string, Bank>, steps: seq<Step>, more: seq<Step>, u: nat)
    requires IsRun(Initial(banks), steps) && IsRun(After(Initial(banks), steps), more)
    ensures var w := After(Initial(banks), steps);
            u in w.registrations && w.registrations[u].stage.RegDone? ==>
              w.registrations[u].client in After(w, more).accounts
  {
    RunDone(Initial(banks), steps);
    RunDone(After(Initial(banks), steps), more);
  }

  // ---- Every run ----

  /** In every run, with any overlaps, errors and timeouts: a balance with no debit on its way to the log
      is the opening balance less the client's successes since, plus what stale writes lost. */
  lemma BalanceOfRun(banks: map<string, Bank>, steps: seq<Step>, client: string)
    requires IsRun(Initial(banks), steps)
    ensures var w := After(Initial(banks), steps);
            AccountsOk(w) &&
            (client in w.accounts && !DebitPending(w, client) ==>
               w.accounts[client] == Plain(w, client) + AllLost(Initial(banks), steps, client))
  {
    var w := After(Initial(banks), steps);
    var n := SomeBound(w.calls.Keys);
    InitialAccounts(banks, client, n);
    RunSurplus(Initial(banks), steps, client, n);
    if !DebitPending(w, client) {
      NothingUnlogged(w, client, n);
    }
  }

  // ---- When nothing is lost ----

  predicate AnyStale(w: World, steps: seq<Step>, client: string)
    requires IsRun(w, steps)
    decreases steps
  {
    steps != [] && (Stale(w, steps[0], client) || AnyStale(Apply(w, steps[0]), steps[1..], client))
  }

  /** A registration writes over the account that another one has opened since it looked. */
  predicate AnyReset(w: World, steps: seq<Step>, client: string)
    requires IsRun(w, steps)
    decreases steps
  {
    steps != [] &&
    ((steps[0].StoreRegistration? && Stale(w, steps[0], client)) || AnyReset(Apply(w, steps[0]), steps[1..], client))
  }

  lemma {:induction false} NoStaleNoLoss(w: World, steps: seq<Step>, client: string)
    requires IsRun(w, steps) && !AnyStale(w, steps, client)
    ensures AllLost(w, steps, client) == 0.0 && !AnyReset(w, steps, client)
    decreases steps
  {
    hide Apply, Enabled, Stale;
    if steps != [] {
      NoStaleNoLoss(Apply(w, steps[0]), steps[1..], client);
    }
  }

  /** The client pays positive amounts only. */
  predicate PaysPositive(step: Step, client: string) {
    step.Submit? && step.req.client == client ==> step.req.amount > 0.0
  }

  predicate Positive(w: World, client: string) {
    forall t :: t in w.calls && w.calls[t].req.client == client ==> w.calls[t].req.amount > 0.0
  }

  /** What a call has read is the balance now, or more than the balance would be without any loss. */
  predicate ReadOk(w: World, client: string, n: nat)
    requires AccountsOk(w) && client in w.accounts
  {
    && Surplus(w, client, n) >= 0.0
    && forall t :: t in w.calls && w.calls[t].req.client == client && w.calls[t].stage.DebitLoaded? ==>
         || w.calls[t].stage.balance == w.accounts[client]
         || w.calls[t].stage.balance > w.accounts[client] - Surplus(w, client, n)
  }

  predicate SignInv(w: World, client: string, n: nat) {
    AccountsOk(w) && Positive(w, client) && (client in w.accounts ==> ReadOk(w, client, n))
  }

  lemma MoveSign(w: World, w': World, t: nat, client: string, n: nat)
    requires SignInv(w, client, n) && OnlyMoves(w, w', t)
    requires w'.calls[t].req.client == client && t !in w.calls ==> w'.calls[t].req.amount > 0.0
    requires w'.calls[t].stage.DebitLoaded? && w'.calls[t].req.client == client ==>
               || (t in w.calls && w.calls[t].stage == w'.calls[t].stage)
               || w'.calls[t].stage.balance == w.accounts[client]
    ensures SignInv(w', client, n)
  {
    hide Surplus;
    MoveKeeps(w, w', t, client, n);
  }

  lemma PlainSign(w: World, step: Step, client: string, n: nat)
    requires SignInv(w, client, n) && Enabled(w, step) && Plainly(step) && PaysPositive(step, client)
    ensures SignInv(Apply(w, step), client, n)
  {
    hide SignInv, HandleRpc, LookUp, OnlyMoves;
    assert AccountsOk(w) by { SignAccounts(w, client, n); }
    if IsCallStep(step) {
      hide Apply, Enabled, StepCall, CallEnabled;
      ApplyCallStep(w, step);
      CallStepMoves(w, step);
      CallStepStage(w, w.calls[step.t], step);
      MoveSign(w, Apply(w, step), step.t, client, n);
    } else if step.SubmitRegistration? || step.LoadRegistration? {
      SameSign(w, Apply(w, step), client, n);
    } else {
      OtherMoves(w, step);
      MoveSign(w, Apply(w, step), step.t, client, n);
    }
  }

  lemma SignAccounts(w: World, client: string, n: nat)
    requires SignInv(w, client, n)
    ensures AccountsOk(w)
  {
  }

  lemma SameSign(w: World, w': World, client: string, n: nat)
    requires SignInv(w, client, n) && w'.calls == w.calls
    requires w'.log == w.log && w'.accounts == w.accounts && w'.openedAt == w.openedAt
    ensures SignInv(w', client, n)
  {
    SameMoney(w, w', client, n);
  }

  lemma WriteSign(w: World, t: nat, client: string, n: nat)
    requires SignInv(w, client, n) && Enabled(w, StoreBalance(t)) && t < n
    ensures SignInv(Apply(w, StoreBalance(t)), client, n)
    ensures client in w.accounts && Stale(w, StoreBalance(t), client) ==> Surplus(Apply(w, StoreBalance(t)), client, n) > 0.0
  {
    hide Surplus;
    WriteStep(w, t, client, n);
  }

  lemma LogSign(w: World, t: nat, r: Response, client: string, n: nat)
    requires SignInv(w, client, n) && t in w.calls && t < n
    requires if r.success then w.calls[t].stage.Succeeding? else w.calls[t].stage.Failing?
    ensures SignInv(Finish(w, t, w.calls[t], r), client, n)
  {
    hide Surplus;
    LogStep(w, t, r, client, n);
  }

  lemma OpenSign(w: World, u: nat, client: string, n: nat)
    requires SignInv(w, client, n) && Enabled(w, StoreRegistration(u)) && !Stale(w, StoreRegistration(u), client)
    ensures SignInv(Apply(w, StoreRegistration(u)), client, n)
  {
    hide Surplus;
    OpenStep(w, u, client, n);
  }

  lemma StepSign(w: World, step: Step, client: string, n: nat)
    requires SignInv(w, client, n) && Enabled(w, step) && Below(w, n)
    requires PaysPositive(step, client) && !(step.StoreRegistration? && Stale(w, step, client))
    ensures SignInv(Apply(w, step), client, n)
  {
    hide SignInv, Stale;
    match step
    case StoreBalance(t) => WriteSign(w, t, client, n);
    case StoreFailure(t) => LogSign(w, t, Response(false, Text(w.calls[t].stage.why)), client, n);
    case StoreSuccess(t) => LogSign(w, t, Response(true, Paid(w.calls[t].req.amount, t)), client, n);
    case StoreRegistration(u) => OpenSign(w, u, client, n);
    case _ =>
      hide Apply, Enabled;
      PlainSign(w, step, client, n);
  }

  /** A loss is never made good. */
  lemma StepZero(w: World, step: Step, client: string, n: nat)
    requires AccountsOk(w) && SignInv(w, client, n) && Enabled(w, step) && Below(w, n)
    requires PaysPositive(step, client) && !(step.StoreRegistration? && Stale(w, step, client))
    ensures AccountsOk(Apply(w, step)) && SignInv(Apply(w, step), client, n)
    ensures SurplusOrNone(Apply(w, step), client, n) == 0.0 <==>
            SurplusOrNone(w, client, n) == 0.0 && !Stale(w, step, client)
  {
    hide Apply, Enabled, Surplus, Stale, Lost, SignInv;
    StepSign(w, step, client, n);
    StepSurplus(w, step, client, n);
    LossSign(w, step, client, n);
  }

  lemma LossSign(w: World, step: Step, client: string, n: nat)
    requires SignInv(w, client, n) && Enabled(w, step) && !(step.StoreRegistration? && Stale(w, step, client))
    ensures AccountsOk(w) && SurplusOrNone(w, client, n) >= 0.0
    ensures if Stale(w, step, client) then SurplusOrNone(w, client, n) + Lost(w, step, client) > 0.0
            else Lost(w, step, client) == 0.0
  {
    hide Surplus;
  }

  lemma {:induction false} RunZero(w: World, steps: seq<Step>, client: string, n: nat)
    requires AccountsOk(w) && SignInv(w, client, n) && IsRun(w, steps) && Below(After(w, steps), n)
    requires (forall k :: 0 <= k < |steps| ==> PaysPositive(steps[k], client)) && !AnyReset(w, steps, client)
    ensures AccountsOk(After(w, steps))
    ensures SurplusOrNone(After(w, steps), client, n) == 0.0 <==>
            SurplusOrNone(w, client, n) == 0.0 && !AnyStale(w, steps, client)
    decreases steps
  {
    hide AccountsOk, Apply, Enabled, SurplusOrNone, Stale, SignInv, PaysPositive;
    if steps != [] {
      CallsStay(w, steps);
      StepZero(w, steps[0], client, n);
      RunZero(Apply(w, steps[0]), steps[1..], client, n);
    }
  }

  /** For a client that pays positive amounts and whose account no registration resets: its balance is the
      plain one if and only if no write of it was stale. */
  lemma PlainBalanceIff(banks: map<string, Bank>, steps: seq<Step>, client: string)
    requires IsRun(Initial(banks), steps) && !AnyReset(Initial(banks), steps, client)
    requires forall k :: 0 <= k < |steps| ==> PaysPositive(steps[k], client)
    ensures var w := After(Initial(banks), steps);
            AccountsOk(w) &&
            (client in w.accounts && !DebitPending(w, client) ==>
               (w.accounts[client] == Plain(w, client) <==> !AnyStale(Initial(banks), steps, client)))
  {
    var w := After(Initial(banks), steps);
    var n := SomeBound(w.calls.Keys);
    InitialAccounts(banks, client, n);
    RunZero(Initial(banks), steps, client, n);
    if !DebitPending(w, client) {
      NothingUnlogged(w, client, n);
    }
  }

  // ---- A condition that keeps writes from being stale ----

  /** No two calls of one client are between reading and writing its balance at once, and no registration
      is between looking and opening while another one, or a success without a debit, is too. */
  predicate ClientsApart(w: World) {
    && (forall t, u :: t in w.calls && u in w.calls && t != u && w.calls[t].stage.DebitLoaded? && w.calls[u].stage.DebitLoaded? ==>
          w.calls[t].req.client != w.calls[u].req.client)
    && (forall t, u :: t in w.calls && u in w.registrations && w.calls[t].stage == Succeeding(false)
                       && w.registrations[u].stage.RegMissing? ==>
          w.calls[t].req.client != w.registrations[u].client)
    && (forall u, v :: u in w.registrations && v in w.registrations && u != v
                       && w.registrations[u].stage.RegMissing? && w.registrations[v].stage.RegMissing? ==>
          w.registrations[u].client != w.registrations[v].client)
  }

  predicate IsClientRun(w: World, steps: seq<Step>)
    decreases steps
  {
    ClientsApart(w) && (steps == [] || (Enabled(w, steps[0]) && IsClientRun(Apply(w, steps[0]), steps[1..])))
  }

  /** What a call or a registration has read still holds. */
  predicate CallFresh(w: World, call: Call) {
    match call.stage
    case DebitLoaded(b) => call.req.client in w.accounts && w.accounts[call.req.client] == b
    case Succeeding(debited) => debited || call.req.client !in w.accounts
    case _ => true
  }

  predicate AllFresh(w: World) {
    && (forall t :: t in w.calls ==> CallFresh(w, w.calls[t]))
    && (forall u :: u in w.registrations && w.registrations[u].stage.RegMissing? ==>
          w.registrations[u].client !in w.accounts)
  }

  lemma FreshMove(w: World, w': World, t: nat)
    requires AllFresh(w) && t in w'.calls && w'.calls == w.calls[t := w'.calls[t]] && CallFresh(w, w'.calls[t])
    requires w'.accounts == w.accounts && w'.registrations == w.registrations
    ensures AllFresh(w')
  {
  }

  lemma FreshCallStep(w: World, step: Step)
    requires AllFresh(w) && Enabled(w, step) && IsCallStep(step) && !step.StoreBalance?
    ensures AllFresh(Apply(w, step))
  {
    hide AllFresh, Apply, Enabled, StepCall, CallEnabled;
    ApplyCallStep(w, step);
    CallStepStage(w, w.calls[step.t], step);
    FreshAt(w, step.t);
    FreshMove(w, Apply(w, step), step.t);
  }

  lemma FreshWrite(w: World, t: nat)
    requires AllFresh(w) && ClientsApart(w) && Enabled(w, StoreBalance(t))
    ensures AllFresh(Apply(w, StoreBalance(t)))
  {
    assert CallFresh(w, w.calls[t]);
  }

  lemma FreshRegistration(w: World, step: Step)
    requires AllFresh(w) && ClientsApart(w) && Enabled(w, step)
    requires step.SubmitRegistration? || step.LoadRegistration? || step.StoreRegistration?
    ensures AllFresh(Apply(w, step))
  {
  }

  lemma FreshStep(w: World, step: Step)
    requires AllFresh(w) && ClientsApart(w) && Enabled(w, step)
    ensures AllFresh(Apply(w, step))
  {
    hide AllFresh, ClientsApart, Apply, Enabled;
    match step
    case StoreBalance(t) => FreshWrite(w, t);
    case Submit(_, _) => FreshOther(w, step);
    case LoadEntry(_, _) => FreshOther(w, step);
    case Handle(_, _) => FreshOther(w, step);
    case StoreFailure(_) => FreshOther(w, step);
    case StoreSuccess(_) => FreshOther(w, step);
    case SubmitRegistration(_, _) => FreshRegistration(w, step);
    case LoadRegistration(_) => FreshRegistration(w, step);
    case StoreRegistration(_) => FreshRegistration(w, step);
    case _ => FreshCallStep(w, step);
  }

  lemma FreshOther(w: World, step: Step)
    requires AllFresh(w) && Enabled(w, step)
    requires step.Submit? || step.LoadEntry? || step.Handle? || step.StoreFailure? || step.StoreSuccess?
    ensures AllFresh(Apply(w, step))
  {
    hide HandleRpc, LookUp, AllFresh;
    assert step.t in w.calls ==> CallFresh(w, w.calls[step.t]) by { FreshAt(w, step.t); }
    FreshMove(w, Apply(w, step), step.t);
  }

  lemma FreshAt(w: World, t: nat)
    requires AllFresh(w)
    ensures t in w.calls ==> CallFresh(w, w.calls[t])
  {
  }

  lemma FreshNotStale(w: World, step: Step, client: string)
    requires AllFresh(w) && Enabled(w, step)
    ensures !Stale(w, step, client)
  {
    if step.StoreBalance? || step.StoreSuccess? {
      assert CallFresh(w, w.calls[step.t]);
    }
  }

  lemma {:induction false} ClientRunFresh(w: World, steps: seq<Step>, client: string)
    requires AllFresh(w) && IsClientRun(w, steps)
    ensures IsRun(w, steps) && !AnyStale(w, steps, client)
    decreases steps
  {
    hide AllFresh, ClientsApart, Apply, Enabled, Stale;
    if steps != [] {
      FreshNotStale(w, steps[0], client);
      FreshStep(w, steps[0]);
      ClientRunFresh(Apply(w, steps[0]), steps[1..], client);
    }
  }

  /** If no two calls of one client are between reading and writing its balance at once (and likewise for
      opening accounts), every balance with no debit on its way to the log is the plain one, whatever else
      overlaps and whatever happens to keys. */
  lemma ClientBalance(banks: map<string, Bank>, steps: seq<Step>, client: string)
    requires IsClientRun(Initial(banks), steps)
    ensures IsRun(Initial(banks), steps)
    ensures var w := After(Initial(banks), steps);
            AccountsOk(w) &&
            (client in w.accounts && !DebitPending(w, client) ==> w.accounts[client] == Plain(w, client))
  {
    ClientRunFresh(Initial(banks), steps, client);
    NoStaleNoLoss(Initial(banks), steps, client);
    BalanceOfRun(banks, steps, client);
  }

  /** The ledger: in every interleaving, under any bank errors and timeouts, if also no two calls contend
      for one key, a client's balance is its opening balance less the amounts of the distinct keys that
      ran for it since and are stored as successful. */
  lemma LedgerBalance(banks: map<string, Bank>, steps: seq<Step>, client: string)
    requires IsKeyRun(Initial(banks), steps) && IsClientRun(Initial(banks), steps)
    ensures IsRun(Initial(banks), steps)
    ensures var w := After(Initial(banks), steps);
            && DistinctKeys(w.log) && StoreOk(w) && AccountsOk(w)
            && (client in w.accounts && !DebitPending(w, client) ==>
                  w.accounts[client] == OPENING - Spent(w.log[w.openedAt[client]..], client))
  {
    ClientBalance(banks, steps, client);
    AtMostOncePerKey(banks, steps);
  }
}
