/** How payments fail, over whole runs: whom the gateway tells, what it answers, and what the banks keep;
    and what an entry in a bank stands for. */
module PaymentFailures {

  import opened Options
  import opened PaymentBank
  import opened PaymentGateway
  import opened PaymentWorld
  import opened PaymentAgreement
  import opened PaymentRuns
  import opened PaymentSelect

  // ---- Whom the gateway tells ----

  /** In every run: a payment that has gone to the banks and is about to store a failure, or has returned, has
      asked both banks to prepare, and then told both to commit or both to abort, never one of them and never
      both things. */
  lemma AbortsIff(banks: map<string, Bank>, steps: seq<Step>, t: nat)
    requires IsRun(Initial(banks), steps) && t in After(Initial(banks), steps).calls
    requires var call := After(Initial(banks), steps).calls[t];
             call.rpcs != map[] && (call.stage.Failing? || call.stage.Returned?)
    ensures var sent := After(Initial(banks), steps).calls[t].rpcs;
            && RpcId(PrepareRpc, Sender) in sent && RpcId(PrepareRpc, Receiver) in sent
            && (RpcId(AbortRpc, Sender) in sent <==> RpcId(AbortRpc, Receiver) in sent)
            && (RpcId(CommitRpc, Sender) in sent <==> RpcId(CommitRpc, Receiver) in sent)
            && (RpcId(AbortRpc, Sender) in sent <==> RpcId(CommitRpc, Sender) !in sent)
  {
    InitialOk(banks);
    RunKeeps(Initial(banks), steps);
    OneCallOk(After(Initial(banks), steps), t);
  }

  /** Launching a payment: a missing bank is an error, the sender's first, and nothing is sent; otherwise one
      Prepare goes out to each side. */
  lemma LaunchOutcome(w: World, t: nat)
    requires WorldOk(w) && Enabled(w, Launch(t))
    ensures var req, call := w.calls[t].req, Apply(w, Launch(t)).calls[t];
            && call.req == req
            && Apply(w, Launch(t)).stored == w.stored && Apply(w, Launch(t)).log == w.log
            && (if req.fromBank !in w.banks then call.stage == Returned(NoSuchBank("sender bank not found")) && call.rpcs == map[]
                else if req.toBank !in w.banks then call.stage == Returned(NoSuchBank("receiver bank not found")) && call.rpcs == map[]
                else
                  && call.stage == Collecting(PrepareRpc, 0, None, None)
                  && call.rpcs.Keys == {RpcId(PrepareRpc, Sender), RpcId(PrepareRpc, Receiver)}
                  && forall id :: id in call.rpcs ==> call.rpcs[id] == Rpc(None, false, false))
  {
    OneCallOk(w, t);
  }

  // ---- What it answers ----

  /** The call is on its way to answer, or has answered, with this failure. */
  predicate FailsWith(call: Call, why: string) {
    || (call.stage.Aborting? && call.stage.why == why)
    || call.stage == Failing(why)
    || call.stage == Returned(Replied(Response(false, Text(why))))
  }

  lemma CallFails(w: World, call: Call, step: Step, why: string)
    requires FailsWith(call, why) && CallEnabled(w, call, step) && IsCallStep(step)
    ensures FailsWith(StepCall(w, call, step), why)
  {
  }

  lemma StepFails(w: World, step: Step, t: nat, why: string)
    requires t in w.calls && FailsWith(w.calls[t], why) && Enabled(w, step)
    ensures t in Apply(w, step).calls && FailsWith(Apply(w, step).calls[t], why)
  {
    hide HandleRpc, LookUp;
    if IsCallStep(step) {
      hide Apply, Enabled, StepCall, CallEnabled, FailsWith;
      ApplyCallStep(w, step);
      if step.t == t {
        CallFails(w, w.calls[t], step, why);
      }
    }
  }

  lemma {:induction false} RunFails(w: World, steps: seq<Step>, t: nat, why: string)
    requires t in w.calls && FailsWith(w.calls[t], why) && IsRun(w, steps)
    ensures t in After(w, steps).calls && FailsWith(After(w, steps).calls[t], why)
    decreases steps
  {
    hide FailsWith, Apply, Enabled;
    if steps != [] {
      StepFails(w, steps[0], t, why);
      RunFails(Apply(w, steps[0]), steps[1..], t, why);
    }
  }

  /** A phase that fails on the second thing it takes fails the payment with the reason the gateway's method
      gives, in every continuation: what is finally returned is exactly that. */
  lemma FailureIsAnswered(banks: map<string, Bank>, before: seq<Step>, step: Step, between: seq<Step>, step': Step, more: seq<Step>)
    requires IsRun(Initial(banks), before)
    requires Enabled(After(Initial(banks), before), step) && step.TakeReply?
    requires IsRun(Apply(After(Initial(banks), before), step), between) && Waits(between, step.t)
    requires Enabled(After(Apply(After(Initial(banks), before), step), between), step') && Takes(step') && step'.t == step.t
    requires var w := After(Initial(banks), before);
             step.t in w.calls && w.calls[step.t].stage.Collecting? && w.calls[step.t].stage.i == 0
    requires IsRun(Apply(After(Apply(After(Initial(banks), before), step), between), step'), more)
    ensures var w := After(Initial(banks), before);
            var w' := After(Apply(w, step), between);
            var kind, t, end := w.calls[step.t].stage.kind, step.t, After(Apply(w', step'), more);
            && CallEnabled(w, w.calls[t], step) && t in w'.calls && CallEnabled(w', w'.calls[t], step')
            && var events := [EventOf(w, w.calls[t], step), EventOf(w', w'.calls[t], step')];
               Deliverable(events) &&
               (PhaseFailure(kind, events).Some? ==>
                  t in end.calls && FailsWith(end.calls[t], PhaseFailure(kind, events).value))
  {
    hide Apply, Enabled, StepCall, CallEnabled, Deliverable, PhaseFailure;
    LoopInRun(banks, before, step, between, step');
    var w := After(Initial(banks), before);
    var w' := After(Apply(w, step), between);
    var t := step.t;
    var events := [EventOf(w, w.calls[t], step), EventOf(w', w'.calls[t], step')];
    var failure := PhaseFailure(w.calls[t].stage.kind, events);
    if failure.Some? {
      RunFails(Apply(w', step'), more, t, failure.value);
    }
  }

  /** The same for a phase that is interrupted by the first thing it takes. */
  lemma InterruptionIsAnswered(w: World, step: Step, more: seq<Step>)
    requires Enabled(w, step) && (step.TakeError? || step.Timeout?) && IsRun(Apply(w, step), more)
    ensures var t, end := step.t, After(Apply(w, step), more);
            && t in w.calls && w.calls[t].stage.Collecting? && CallEnabled(w, w.calls[t], step)
            && var why := Interrupted(w.calls[t].stage.kind, [EventOf(w, w.calls[t], step)]);
               why.Some? && t in end.calls && FailsWith(end.calls[t], why.value)
  {
    TakeStage(w, step);
    LoopInterrupted(w, w.calls[step.t], step);
    var why := Interrupted(w.calls[step.t].stage.kind, [EventOf(w, w.calls[step.t], step)]);
    assert why.Some?;
    hide Interrupted, StepCall, Apply, Enabled;
    RunFails(Apply(w, step), more, step.t, why.value);
  }

  /** What a call stores is what it returns: its failure, or its payment with its own amount and transaction. */
  lemma StoresWhatItReturns(w: World, t: nat)
    ensures Enabled(w, StoreFailure(t)) ==>
              var (w', r) := (Apply(w, StoreFailure(t)), Response(false, Text(w.calls[t].stage.why)));
              && w'.stored == w.stored[w.calls[t].req.key := r] && w'.calls[t].stage == Returned(Replied(r))
              && w'.accounts == w.accounts
    ensures Enabled(w, StoreSuccess(t)) ==>
              var (w', r) := (Apply(w, StoreSuccess(t)), Response(true, Paid(w.calls[t].req.amount, t)));
              && w'.stored == w.stored[w.calls[t].req.key := r] && w'.calls[t].stage == Returned(Replied(r))
              && w'.accounts == w.accounts
  {
  }

  // ---- What the banks keep ----

  /** Every Prepare of `t` that goes to this bank has been handled, the payment is being aborted, and the bank
      has no entry for it. */
  predicate CleanAt(w: World, t: nat, name: string) {
    && t in w.calls && HasSent(w.calls[t], AbortRpc) && !PendingAt(w, name, t)
    && (w.calls[t].req.fromBank == name ==> RepliedAt(w.calls[t], RpcId(PrepareRpc, Sender)))
    && (w.calls[t].req.toBank == name ==> RepliedAt(w.calls[t], RpcId(PrepareRpc, Receiver)))
  }

  lemma SameRepliedAt(a: Call, b: Call, id: RpcId)
    requires CallGrows(a, b) && RepliedAt(a, id)
    ensures RepliedAt(b, id)
  {
  }

  lemma AbortStays(w: World, step: Step, t: nat)
    requires WorldOk(w) && Enabled(w, step) && t in w.calls && HasSent(w.calls[t], AbortRpc)
    ensures t in Apply(w, step).calls && HasSent(Apply(w, step).calls[t], AbortRpc)
  {
    OneCallOk(w, t);
    hide CallOk, WorldOk, HandleRpc, LookUp;
    if IsCallStep(step) {
      hide Apply, Enabled;
      ApplyCallStep(w, step);
      if step.t == t {
        CallAbortStays(w, w.calls[t], step);
      }
    }
  }

  lemma CallAbortStays(w: World, call: Call, step: Step)
    requires CallOk(call) && HasSent(call, AbortRpc) && CallEnabled(w, call, step) && IsCallStep(step)
    ensures HasSent(StepCall(w, call, step), AbortRpc)
  {
    hide Agreement, Channels;
  }

  lemma HandleStaysClean(w: World, t: nat, id: RpcId, name: string)
    requires CleanAt(w, t, name) && Enabled(w, Handle(t, id))
    ensures !PendingAt(Apply(w, Handle(t, id)), name, t)
  {
  }

  lemma StepClean(w: World, step: Step, t: nat, name: string)
    requires WorldOk(w) && Enabled(w, step) && CleanAt(w, t, name)
    ensures CleanAt(Apply(w, step), t, name)
  {
    hide WorldOk, Apply, Enabled, PendingAt, CallGrows;
    AbortStays(w, step, t);
    StepGrows(w, step, t);
    var w' := Apply(w, step);
    assert w'.calls[t].req == w.calls[t].req by { GrowsReq(w.calls[t], w'.calls[t]); }
    if w.calls[t].req.fromBank == name { SameRepliedAt(w.calls[t], w'.calls[t], RpcId(PrepareRpc, Sender)); }
    if w.calls[t].req.toBank == name { SameRepliedAt(w.calls[t], w'.calls[t], RpcId(PrepareRpc, Receiver)); }
    if step.Handle? && step.t == t {
      HandleStaysClean(w, t, step.id, name);
    } else {
      OthersUntouched(w, step, name, t);
    }
  }

  lemma GrowsReq(a: Call, b: Call)
    requires CallGrows(a, b)
    ensures a.req == b.req
  {
  }

  lemma {:induction false} RunClean(w: World, steps: seq<Step>, t: nat, name: string)
    requires WorldOk(w) && IsRun(w, steps) && CleanAt(w, t, name)
    ensures CleanAt(After(w, steps), t, name)
    decreases steps
  {
    hide WorldOk, CleanAt, Apply, Enabled;
    if steps != [] {
      StepClean(w, steps[0], t, name);
      StepKeeps(w, steps[0]);
      RunClean(Apply(w, steps[0]), steps[1..], t, name);
    }
  }

  /** An Abort that a bank handles after the payment's Prepares to it leaves no entry, for good. A refused
      payment is such a case at both banks: both have voted before the gateway aborts. */
  lemma AbortLeavesNothing(banks: map<string, Bank>, steps: seq<Step>, t: nat, side: Side, more: seq<Step>)
    requires IsRun(Initial(banks), steps) && Enabled(After(Initial(banks), steps), Handle(t, RpcId(AbortRpc, side)))
    requires var call := After(Initial(banks), steps).calls[t];
             forall s: Side :: BankOf(call.req, s) == BankOf(call.req, side) ==> RepliedAt(call, RpcId(PrepareRpc, s))
    requires IsRun(Apply(After(Initial(banks), steps), Handle(t, RpcId(AbortRpc, side))), more)
    ensures var w := Apply(After(Initial(banks), steps), Handle(t, RpcId(AbortRpc, side)));
            t in w.calls && !PendingAt(After(w, more), BankOf(w.calls[t].req, side), t)
  {
    InitialOk(banks);
    RunKeeps(Initial(banks), steps);
    var w0 := After(Initial(banks), steps);
    var w := Apply(w0, Handle(t, RpcId(AbortRpc, side)));
    StepKeeps(w0, Handle(t, RpcId(AbortRpc, side)));
    AbortCleans(w0, t, side);
    RunClean(w, more, t, BankOf(w0.calls[t].req, side));
  }

  lemma AbortCleans(w: World, t: nat, side: Side)
    requires WorldOk(w) && Enabled(w, Handle(t, RpcId(AbortRpc, side)))
    requires forall s: Side :: BankOf(w.calls[t].req, s) == BankOf(w.calls[t].req, side) ==> RepliedAt(w.calls[t], RpcId(PrepareRpc, s))
    ensures var w' := Apply(w, Handle(t, RpcId(AbortRpc, side)));
            CleanAt(w', t, BankOf(w.calls[t].req, side)) && w'.calls[t].req == w.calls[t].req
  {
    hide WorldOk;
    SentOf(w.calls[t], RpcId(AbortRpc, side));
    assert BankOf(w.calls[t].req, Sender) == w.calls[t].req.fromBank && BankOf(w.calls[t].req, Receiver) == w.calls[t].req.toBank;
  }

  /** When the gateway aborts because of a refusal, both banks have voted. */
  lemma RefusedAfterBothVoted(w: World, t: nat, id: RpcId)
    requires WorldOk(w) && Enabled(w, TakeReply(t, id)) && Apply(w, TakeReply(t, id)).calls[t].stage.Aborting?
    ensures forall side: Side :: RepliedAt(Apply(w, TakeReply(t, id)).calls[t], RpcId(PrepareRpc, side))
  {
    OneCallOk(w, t);
    hide WorldOk;
    var call := w.calls[t];
    assert call.stage.i == 1 && call.stage.kind == PrepareRpc;
    SecondAnswer(call, id);
    forall side: Side ensures RepliedAt(Apply(w, TakeReply(t, id)).calls[t], RpcId(PrepareRpc, side)) {
      assert side.Sender? || side.Receiver?;
      assert id == RpcId(PrepareRpc, Sender) || id == RpcId(PrepareRpc, Receiver);
    }
  }

  // ---- What an entry stands for ----

  /** Handling a Prepare: the bank of that side looks for the account of that side, and reserves the payment's
      amount if it has it. */
  lemma PrepareReserves(w: World, t: nat)
    ensures Enabled(w, Handle(t, RpcId(PrepareRpc, Sender))) ==>
              var req, w' := w.calls[t].req, Apply(w, Handle(t, RpcId(PrepareRpc, Sender)));
              req.fromBank in w.banks && Reserved(w.banks[req.fromBank], w'.banks[req.fromBank], t, req.fromAccount, req.amount)
              && SaidYes(w'.calls[t], RpcId(PrepareRpc, Sender)) == (req.fromAccount in w.banks[req.fromBank].accounts)
    ensures Enabled(w, Handle(t, RpcId(PrepareRpc, Receiver))) ==>
              var req, w' := w.calls[t].req, Apply(w, Handle(t, RpcId(PrepareRpc, Receiver)));
              req.toBank in w.banks && Reserved(w.banks[req.toBank], w'.banks[req.toBank], t, req.toAccount, req.amount)
              && SaidYes(w'.calls[t], RpcId(PrepareRpc, Receiver)) == (req.toAccount in w.banks[req.toBank].accounts)
  {
  }

  predicate Reserved(b: Bank, b': Bank, t: nat, account: string, amount: real) {
    b'.accounts == b.accounts && b'.pending == if account in b.accounts then b.pending[t := amount] else b.pending
  }

  predicate SomeEntry(banks: map<string, Bank>, name: string, t: nat) {
    name in banks && t in banks[name].pending
  }

  /** The entry was there at the start, or it is the amount of a payment between an account of this bank and
      another one. */
  predicate EntryOk(w: World, banks: map<string, Bank>, name: string, t: nat)
    requires SomeEntry(w.banks, name, t)
  {
    || (SomeEntry(banks, name, t) && w.banks[name].pending[t] == banks[name].pending[t])
    || (&& t in w.calls && w.banks[name].pending[t] == w.calls[t].req.amount
        && var req := w.calls[t].req;
           || (req.fromBank == name && req.fromAccount in w.banks[name].accounts)
           || (req.toBank == name && req.toAccount in w.banks[name].accounts))
  }

  predicate EntriesOk(w: World, banks: map<string, Bank>) {
    forall name, t :: name in w.banks && t in w.banks[name].pending ==> EntryOk(w, banks, name, t)
  }

  lemma OtherStepEntries(w: World, step: Step, banks: map<string, Bank>)
    requires EntriesOk(w, banks) && WorldOk(w) && Enabled(w, step) && !step.Handle?
    ensures EntriesOk(Apply(w, step), banks)
  {
    var w' := Apply(w, step);
    assert w'.banks == w.banks by { SameBanks(w, step); }
    hide WorldOk, Apply, Enabled;
    forall name, t | name in w'.banks && t in w'.banks[name].pending ensures EntryOk(w', banks, name, t) {
      assert EntryOk(w, banks, name, t);
      if t in w.calls {
        StepGrows(w, step, t);
      }
    }
  }

  lemma SameBanks(w: World, step: Step)
    requires Enabled(w, step) && !step.Handle?
    ensures Apply(w, step).banks == w.banks
  {
    hide StepCall, LookUp;
  }

  lemma HandleEntries(w: World, t: nat, id: RpcId, banks: map<string, Bank>)
    requires EntriesOk(w, banks) && Enabled(w, Handle(t, id))
    ensures EntriesOk(Apply(w, Handle(t, id)), banks)
  {
    var w' := Apply(w, Handle(t, id));
    var req, bank := w.calls[t].req, BankOf(w.calls[t].req, id.side);
    forall name, u | name in w'.banks && u in w'.banks[name].pending ensures EntryOk(w', banks, name, u) {
      if u != t {
        HandleElsewhere(w.banks[bank], t, req, id, u);
        HandleAccounts(w.banks[bank], t, req, id);
        assert EntryOk(w, banks, name, u);
      } else if name != bank {
        assert EntryOk(w, banks, name, u);
      } else {
        OwnEntry(w, t, id, banks);
      }
    }
  }

  lemma HandleAccounts(b: Bank, t: nat, req: Request, id: RpcId)
    ensures HandleRpc(b, t, req, id).0.accounts == b.accounts
  {
  }

  lemma OwnEntry(w: World, t: nat, id: RpcId, banks: map<string, Bank>)
    requires EntriesOk(w, banks) && Enabled(w, Handle(t, id))
    requires t in Apply(w, Handle(t, id)).banks[BankOf(w.calls[t].req, id.side)].pending
    ensures EntryOk(Apply(w, Handle(t, id)), banks, BankOf(w.calls[t].req, id.side), t)
  {
    var name := BankOf(w.calls[t].req, id.side);
    if t in w.banks[name].pending {
      assert EntryOk(w, banks, name, t);
    }
  }

  lemma {:induction false} RunEntries(w: World, steps: seq<Step>, banks: map<string, Bank>)
    requires EntriesOk(w, banks) && WorldOk(w) && IsRun(w, steps)
    ensures EntriesOk(After(w, steps), banks)
    decreases steps
  {
    hide EntriesOk, WorldOk, Apply, Enabled;
    if steps != [] {
      StepEntries(w, steps[0], banks);
      StepKeeps(w, steps[0]);
      RunEntries(Apply(w, steps[0]), steps[1..], banks);
    }
  }

  lemma StepEntries(w: World, step: Step, banks: map<string, Bank>)
    requires EntriesOk(w, banks) && WorldOk(w) && Enabled(w, step)
    ensures EntriesOk(Apply(w, step), banks)
  {
    hide EntriesOk, WorldOk, Apply, Enabled;
    if step.Handle? {
      HandleEntries(w, step.t, step.id, banks);
    } else {
      OtherStepEntries(w, step, banks);
    }
  }

  /** In every run, an entry that a bank did not start with is the amount of the payment it is named after, which
      goes from or to an account of that bank. */
  lemma EntryIsAmount(banks: map<string, Bank>, steps: seq<Step>, name: string, t: nat)
    requires IsRun(Initial(banks), steps)
    ensures var w := After(Initial(banks), steps);
            name in w.banks && t in w.banks[name].pending ==>
              || (name in banks && t in banks[name].pending && w.banks[name].pending[t] == banks[name].pending[t])
              || (&& t in w.calls && w.banks[name].pending[t] == w.calls[t].req.amount
                  && var req := w.calls[t].req;
                     || (req.fromBank == name && req.fromAccount in w.banks[name].accounts)
                     || (req.toBank == name && req.toAccount in w.banks[name].accounts))
  {
    InitialOk(banks);
    RunEntries(Initial(banks), steps, banks);
    var w := After(Initial(banks), steps);
    if name in w.banks && t in w.banks[name].pending {
      assert EntryOk(w, banks, name, t);
    }
  }
}
